/**
 * The device and backend descriptors of src/config/setting.rs and their
 * `set_to` translations onto a configuration handle. Each `XxxCalls` function
 * is the specification of the setters `Xxx::set_to` issues; each `XxxSetTo`
 * method issues them one by one on the engine.
 */
module Setting {
  import opened Common
  import opened Ffi

  datatype Cpu = Cpu(threads: Option<I32>, mkldnn: Option<Mkldnn>)

  datatype Mkldnn = Mkldnn(cacheSize: Option<I32>, op: Option<seq<string>>, opF16: Option<seq<string>>)

  datatype Gpu = Gpu(memoryPoolInitSizeMb: U64, deviceId: I32, enableMultiStream: bool,
                     enableCudnn: bool, enableTensorRt: Option<TensorRT>)

  datatype TensorRT = TensorRT(workspaceSize: I32, maxBatchSize: I32, minSubgraphSize: I32,
                               precisionType: Precision, useStatic: bool, useCalibMode: bool,
                               dynamicShapeInfo: seq<DynamicShapeInfo>, disablePluginFp16: bool,
                               enableOss: bool, dlaCore: Option<I32>)

  datatype DynamicShapeInfo = DynamicShapeInfo(name: string, minShape: seq<I32>,
                                               maxShape: seq<I32>, optimShape: seq<I32>)

  /** `autorune` is the source's own field name; it is the autotune switch. */
  datatype Xpu = Xpu(l3WorkspaceSizeMb: I32, locked: bool, autorune: bool,
                     autotuneFile: Option<string>, precision: string, adaptiveSeqlen: bool)

  datatype ONNXRuntime = ONNXRuntime(enableOptimization: bool)

  /**
   * What a translation step issued: all its setters, or the setters issued
   * before an `assert!` failed and the thread panicked.
   */
  datatype Emitted = Completed(calls: seq<ConfigCall>) | Aborted(calls: seq<ConfigCall>)

  // ---------------------------------------------------------------- dynamic shapes

  /** `DynamicShapeInfo::check_and_get_shape_size`; `None` is the failed `assert!`. */
  function CheckAndGetShapeSize(info: DynamicShapeInfo): (r: Option<nat>)
    ensures r.Some? <==> |info.minShape| == |info.maxShape| && |info.minShape| == |info.optimShape|
    ensures r.Some? ==> r.value == |info.minShape| == |info.maxShape| == |info.optimShape|
  {
    if |info.minShape| == |info.maxShape| && |info.minShape| == |info.optimShape| then
      Some(|info.minShape|)
    else
      None
  }

  /** Every entry passes `check_and_get_shape_size`. */
  ghost predicate AllConsistent(infos: seq<DynamicShapeInfo>)
  {
    forall i :: 0 <= i < |infos| ==> CheckAndGetShapeSize(infos[i]).Some?
  }

  /** The parallel arrays handed to `PD_ConfigSetTrtDynamicShapeInfo`. */
  datatype ShapeBatch = ShapeBatch(names: seq<string>, shapesNum: seq<nat>, minShapes: seq<seq<I32>>,
                                   maxShapes: seq<seq<I32>>, optimShapes: seq<seq<I32>>)

  /** Entry i of every array is taken from entry i of `infos`. */
  ghost predicate Describes(b: ShapeBatch, infos: seq<DynamicShapeInfo>)
  {
    && |b.names| == |infos| && |b.shapesNum| == |infos|
    && |b.minShapes| == |infos| && |b.maxShapes| == |infos| && |b.optimShapes| == |infos|
    && forall i :: 0 <= i < |infos| ==>
         && b.names[i] == infos[i].name
         && b.shapesNum[i] == |infos[i].minShape|
         && b.minShapes[i] == infos[i].minShape
         && b.maxShapes[i] == infos[i].maxShape
         && b.optimShapes[i] == infos[i].optimShape
  }

  /** The arrays built from `infos` entry by entry; `None` if some entry is inconsistent. */
  function ShapeBatchOf(infos: seq<DynamicShapeInfo>): (r: Option<ShapeBatch>)
    ensures r.Some? <==> AllConsistent(infos)
    ensures r.Some? ==> Describes(r.value, infos)
    decreases |infos|
  {
    if infos == [] then Some(ShapeBatch([], [], [], [], []))
    else
      var init, last := infos[..|infos| - 1], infos[|infos| - 1];
      assert forall i :: 0 <= i < |init| ==> init[i] == infos[i];
      match ShapeBatchOf(init)
      case None => None
      case Some(b) =>
        match CheckAndGetShapeSize(last)
        case None => None
        case Some(n) =>
          Some(ShapeBatch(b.names + [last.name], b.shapesNum + [n], b.minShapes + [last.minShape],
                          b.maxShapes + [last.maxShape], b.optimShapes + [last.optimShape]))
  }

  /**
   * The loop of `Gpu::set_to` that pushes each entry into the parallel
   * arrays; `None` when `check_and_get_shape_size` panics on an entry. The
   * loop issues no foreign call.
   */
  method CollectDynamicShapes(infos: seq<DynamicShapeInfo>) returns (r: Option<ShapeBatch>)
    ensures r == ShapeBatchOf(infos)
    ensures r.Some? <==> AllConsistent(infos)
  {
    var names: seq<string> := [];
    var shapesNum: seq<nat> := [];
    var minShapes: seq<seq<I32>> := [];
    var maxShapes: seq<seq<I32>> := [];
    var optimShapes: seq<seq<I32>> := [];
    var i := 0;
    while i < |infos|
      invariant 0 <= i <= |infos|
      invariant ShapeBatchOf(infos[..i]) == Some(ShapeBatch(names, shapesNum, minShapes, maxShapes, optimShapes))
    {
      var info := infos[i];
      var size := CheckAndGetShapeSize(info);
      if size.None? {
        assert !AllConsistent(infos);
        return None;
      }
      shapesNum := shapesNum + [size.value];
      names := names + [info.name];
      minShapes := minShapes + [info.minShape];
      maxShapes := maxShapes + [info.maxShape];
      optimShapes := optimShapes + [info.optimShape];
      assert infos[..i + 1][..i] == infos[..i];
      i := i + 1;
    }
    assert infos[..i] == infos;
    r := Some(ShapeBatch(names, shapesNum, minShapes, maxShapes, optimShapes));
  }

  // ---------------------------------------------------------------- CPU

  /** The thread-count setter, issued only for a positive count. */
  function ThreadCalls(threads: Option<I32>): (r: seq<ConfigCall>)
    ensures |r| <= 1
  {
    match threads
    case Some(t) => if t > 0 then [SetCpuMathLibraryNumThreads(t)] else []
    case None => []
  }

  /** The MKLDNN cache setter, issued only for a positive capacity. */
  function CacheCalls(cacheSize: Option<I32>): (r: seq<ConfigCall>)
    ensures |r| <= 1
  {
    match cacheSize
    case Some(c) => if c > 0 then [SetMkldnnCacheCapacity(c)] else []
    case None => []
  }

  /** The bfloat16 switch, immediately followed by its op list. */
  function Bfloat16Calls(opF16: Option<seq<string>>): (r: seq<ConfigCall>)
    ensures |r| <= 2
  {
    match opF16
    case Some(ops) => [EnableMkldnnBfloat16, SetBfloat16Op(|ops|, ops)]
    case None => []
  }

  /** The MKLDNN op-list setter, issued whenever a list is given. */
  function OpCalls(op: Option<seq<string>>): (r: seq<ConfigCall>)
    ensures |r| <= 1
  {
    match op
    case Some(ops) => [SetMkldnnOp(|ops|, ops)]
    case None => []
  }

  /** The MKLDNN setters: cache capacity (only if positive), op list, then bfloat16. */
  function MkldnnCalls(m: Mkldnn): (r: seq<ConfigCall>)
    ensures |r| <= 4
  {
    CacheCalls(m.cacheSize) + OpCalls(m.op) + Bfloat16Calls(m.opF16)
  }

  /** The setters `Cpu::set_to` issues: the thread count, then the MKLDNN setters. */
  function CpuCalls(cpu: Cpu): (r: seq<ConfigCall>)
    ensures |r| <= 5
  {
    var mkldnn := match cpu.mkldnn case Some(m) => MkldnnCalls(m) case None => [];
    ThreadCalls(cpu.threads) + mkldnn
  }

  /**
   * `Cpu::set_to` with MKLDNN: the cache capacity is set exactly when it is
   * positive, the op list exactly when one is given (with its length), and
   * the bfloat16 switch and its op list come last, exactly when a bfloat16
   * op list is given.
   */
  lemma MkldnnCallsContents(m: Mkldnn)
    ensures forall n: I32 :: SetMkldnnCacheCapacity(n) in MkldnnCalls(m) <==> m.cacheSize == Some(n) && n > 0
    ensures forall n, ops :: SetMkldnnOp(n, ops) in MkldnnCalls(m) <==> m.op == Some(ops) && n == |ops|
    ensures m.opF16.None? ==>
              EnableMkldnnBfloat16 !in MkldnnCalls(m) && forall n, ops :: SetBfloat16Op(n, ops) !in MkldnnCalls(m)
    ensures m.opF16.Some? ==>
              var r := MkldnnCalls(m);
              |r| >= 2 && r[|r| - 2..] == [EnableMkldnnBfloat16, SetBfloat16Op(|m.opF16.value|, m.opF16.value)]
  {
    MkldnnCacheContents(m);
    MkldnnOpContents(m);
    MkldnnBfloat16Contents(m);
  }

  lemma MkldnnCacheContents(m: Mkldnn)
    ensures forall n: I32 :: SetMkldnnCacheCapacity(n) in MkldnnCalls(m) <==> m.cacheSize == Some(n) && n > 0
  {
    var cache, rest := CacheCalls(m.cacheSize), OpCalls(m.op) + Bfloat16Calls(m.opF16);
    assert MkldnnCalls(m) == cache + rest;
    assert forall x: ConfigCall :: x in rest ==> !x.SetMkldnnCacheCapacity?;
  }

  lemma MkldnnOpContents(m: Mkldnn)
    ensures forall n, ops :: SetMkldnnOp(n, ops) in MkldnnCalls(m) <==> m.op == Some(ops) && n == |ops|
  {
    var cache, op, bf16 := CacheCalls(m.cacheSize), OpCalls(m.op), Bfloat16Calls(m.opF16);
    assert MkldnnCalls(m) == cache + op + bf16;
    assert forall x: ConfigCall :: x in cache ==> x.SetMkldnnCacheCapacity?;
    assert forall x: ConfigCall :: x in bf16 ==> x.EnableMkldnnBfloat16? || x.SetBfloat16Op?;
  }

  lemma MkldnnBfloat16Contents(m: Mkldnn)
    ensures m.opF16.None? ==>
              EnableMkldnnBfloat16 !in MkldnnCalls(m) && forall n, ops :: SetBfloat16Op(n, ops) !in MkldnnCalls(m)
    ensures m.opF16.Some? ==>
              var r := MkldnnCalls(m);
              |r| >= 2 && r[|r| - 2..] == [EnableMkldnnBfloat16, SetBfloat16Op(|m.opF16.value|, m.opF16.value)]
  {
    var head, bf16 := CacheCalls(m.cacheSize) + OpCalls(m.op), Bfloat16Calls(m.opF16);
    assert MkldnnCalls(m) == head + bf16;
    if m.opF16.None? {
      assert forall x: ConfigCall :: x in head ==> x.SetMkldnnCacheCapacity? || x.SetMkldnnOp?;
      assert MkldnnCalls(m) == head;
    } else {
      assert (head + bf16)[|head + bf16| - 2..] == bf16;
    }
  }

  /** The MKLDNN block issues only MKLDNN setters. */
  lemma MkldnnCallsKinds(m: Mkldnn)
    ensures forall x :: x in MkldnnCalls(m) ==>
              x.SetMkldnnCacheCapacity? || x.SetMkldnnOp? || x.EnableMkldnnBfloat16? || x.SetBfloat16Op?
  {
    var cache, op, bf16 := CacheCalls(m.cacheSize), OpCalls(m.op), Bfloat16Calls(m.opF16);
    assert MkldnnCalls(m) == cache + op + bf16;
  }

  /**
   * `Cpu::set_to`: the thread count is set exactly when it is positive; it is
   * the only setter without MKLDNN, and otherwise the MKLDNN setters follow it.
   */
  lemma CpuCallsContents(cpu: Cpu)
    ensures forall t: I32 :: SetCpuMathLibraryNumThreads(t) in CpuCalls(cpu) <==> cpu.threads == Some(t) && t > 0
    ensures cpu.mkldnn.None? ==>
              |CpuCalls(cpu)| <= 1 && forall x :: x in CpuCalls(cpu) ==> x.SetCpuMathLibraryNumThreads?
    ensures cpu.mkldnn.Some? ==>
              var r, m := CpuCalls(cpu), MkldnnCalls(cpu.mkldnn.value);
              |m| <= |r| <= |m| + 1 && r[|r| - |m|..] == m &&
              forall x :: x in r[..|r| - |m|] ==> x.SetCpuMathLibraryNumThreads?
  {
    var threads := ThreadCalls(cpu.threads);
    assert forall t: I32 :: SetCpuMathLibraryNumThreads(t) in threads <==> cpu.threads == Some(t) && t > 0;
    if cpu.mkldnn.Some? {
      var m := MkldnnCalls(cpu.mkldnn.value);
      assert CpuCalls(cpu) == threads + m;
      assert forall x: ConfigCall :: x in m ==> !x.SetCpuMathLibraryNumThreads? by {
        MkldnnCallsKinds(cpu.mkldnn.value);
      }
      assert (threads + m)[|threads + m| - |m|..] == m;
      assert (threads + m)[..|threads + m| - |m|] == threads;
    } else {
      assert CpuCalls(cpu) == threads;
    }
  }

  /** The MKLDNN block of `Cpu::set_to`, issuing `MkldnnCalls(m)` after the setters `before`. */
  method MkldnnSetTo(m: Mkldnn, e: Engine, cfg: Handle, ghost t0: seq<Call>,
                     ghost c0: map<Handle, seq<ConfigCall>>, ghost before: seq<ConfigCall>)
    requires e.Valid() && e.Applied(t0, c0, cfg, before)
    modifies e
    ensures e.Valid() && e.next == old(e.next) && e.predictors == old(e.predictors)
    ensures e.Applied(t0, c0, cfg, before + MkldnnCalls(m))
  {
    if m.cacheSize.Some? {
      var cache := m.cacheSize.value;
      if cache > 0 {
        Issue(e, cfg, SetMkldnnCacheCapacity(cache), t0, c0, before);
      } else {
        assert before + [] == before;
      }
    } else {
      assert before + [] == before;
    }
    ghost var done := before + CacheCalls(m.cacheSize);
    if m.op.Some? {
      var ops := m.op.value;
      Issue(e, cfg, SetMkldnnOp(|ops|, ops), t0, c0, done);
    } else {
      assert done + [] == done;
    }
    done := done + OpCalls(m.op);
    if m.opF16.Some? {
      var ops := m.opF16.value;
      Issue(e, cfg, EnableMkldnnBfloat16, t0, c0, done);
      Issue(e, cfg, SetBfloat16Op(|ops|, ops), t0, c0, done + [EnableMkldnnBfloat16]);
      assert done + [EnableMkldnnBfloat16] + [SetBfloat16Op(|ops|, ops)] == done + Bfloat16Calls(m.opF16);
    } else {
      assert done + [] == done;
    }
    Regroup(before, CacheCalls(m.cacheSize), OpCalls(m.op), Bfloat16Calls(m.opF16));
  }

  /**
   * `Cpu::set_to`: issues `CpuCalls(cpu)` on `cfg`, after the setters
   * `before` already applied since the trace `t0` and table `c0`.
   */
  method CpuSetTo(cpu: Cpu, e: Engine, cfg: Handle, ghost t0: seq<Call>,
                  ghost c0: map<Handle, seq<ConfigCall>>, ghost before: seq<ConfigCall>)
    requires e.Valid() && e.Applied(t0, c0, cfg, before)
    modifies e
    ensures e.Valid() && e.next == old(e.next) && e.predictors == old(e.predictors)
    ensures e.Applied(t0, c0, cfg, before + CpuCalls(cpu))
  {
    if cpu.threads.Some? {
      var t := cpu.threads.value;
      if t > 0 {
        Issue(e, cfg, SetCpuMathLibraryNumThreads(t), t0, c0, before);
      } else {
        assert before + [] == before;
      }
    } else {
      assert before + [] == before;
    }
    ghost var done := before + ThreadCalls(cpu.threads);
    if cpu.mkldnn.Some? {
      MkldnnSetTo(cpu.mkldnn.value, e, cfg, t0, c0, done);
      Assoc(before, ThreadCalls(cpu.threads), MkldnnCalls(cpu.mkldnn.value));
    } else {
      assert before + CpuCalls(cpu) == done;
    }
  }

  // ---------------------------------------------------------------- GPU and TensorRT

  /** The dynamic-shape batch setter, issued only for a non-empty list; `None` when an entry is inconsistent. */
  function DynamicShapeCalls(t: TensorRT): (r: Option<seq<ConfigCall>>)
  {
    var infos := t.dynamicShapeInfo;
    if infos == [] then Some([])
    else
      match ShapeBatchOf(infos)
      case None => None
      case Some(b) =>
        Some([SetTrtDynamicShapeInfo(|infos|, b.names, b.shapesNum, b.minShapes, b.maxShapes,
                                     b.optimShapes, t.disablePluginFp16)])
  }

  /** The optional TensorRT follow-up setters: OSS, then DLA. */
  function TensorRtFollowUps(t: TensorRT): (r: seq<ConfigCall>)
    ensures |r| <= 2
  {
    var oss := if t.enableOss then [EnableTensorRtOSS] else [];
    var dla := match t.dlaCore case Some(core) => [EnableTensorRtDla(core)] case None => [];
    oss + dla
  }

  /** The setters that only the TensorRT branch issues. */
  predicate IsTensorRtSetter(c: ConfigCall)
  {
    c.EnableTensorRtEngine? || c.SetTrtDynamicShapeInfo? || c.EnableTensorRtOSS? || c.EnableTensorRtDla?
  }

  /**
   * The TensorRT part of `Gpu::set_to`: the engine call, then the
   * dynamic-shape batch call (only for a non-empty list), then OSS, then DLA.
   * The length check runs after the engine call, so a mismatched entry aborts
   * with the engine call already issued.
   */
  function TensorRtCalls(t: TensorRT): (r: Emitted)
  {
    var engine := [EnableTensorRtEngine(t.workspaceSize, t.maxBatchSize, t.minSubgraphSize,
                                        t.precisionType, t.useStatic, t.useCalibMode)];
    match DynamicShapeCalls(t)
    case None => Aborted(engine)
    case Some(batch) => Completed(engine + batch + TensorRtFollowUps(t))
  }

  /** The setters `Gpu::set_to` issues before the TensorRT branch. */
  function GpuBaseCalls(g: Gpu): (r: seq<ConfigCall>)
    ensures 1 <= |r| <= 3
  {
    var stream := if g.enableMultiStream then [EnableGpuMultiStream] else [];
    var cudnn := if g.enableCudnn then [EnableCudnn] else [];
    [EnableUseGpu(g.memoryPoolInitSizeMb, g.deviceId)] + stream + cudnn
  }

  /** The setters `Gpu::set_to` issues. */
  function GpuCalls(g: Gpu): (r: Emitted)
  {
    match g.enableTensorRt
    case None => Completed(GpuBaseCalls(g))
    case Some(t) =>
      var trt := TensorRtCalls(t);
      trt.(calls := GpuBaseCalls(g) + trt.calls)
  }

  /**
   * The dynamic-shape batch: nothing for an empty list; otherwise, when every
   * entry passes the length check, one call whose parallel arrays describe the
   * entries in order and which carries the plugin-FP16 switch.
   */
  lemma DynamicShapeCallsContents(t: TensorRT)
    ensures DynamicShapeCalls(t).Some? <==> AllConsistent(t.dynamicShapeInfo)
    ensures DynamicShapeCalls(t).Some? ==>
              |DynamicShapeCalls(t).value| == if t.dynamicShapeInfo == [] then 0 else 1
    ensures DynamicShapeCalls(t).Some? && t.dynamicShapeInfo != [] ==>
              var c := DynamicShapeCalls(t).value[0];
              && c.SetTrtDynamicShapeInfo?
              && c.tensorNum == |t.dynamicShapeInfo|
              && Describes(ShapeBatch(c.tensorNames, c.shapesNum, c.minShapes, c.maxShapes, c.optimShapes),
                           t.dynamicShapeInfo)
              && c.disablePluginFp16 == t.disablePluginFp16
  {
  }

  /**
   * The TensorRT branch always starts with the engine call and issues only
   * TensorRT setters; it panics exactly when some dynamic-shape entry fails
   * the length check, and then the engine call is all it has issued.
   */
  lemma TensorRtCallsShape(t: TensorRT)
    ensures |TensorRtCalls(t).calls| > 0
    ensures TensorRtCalls(t).calls[0] == EnableTensorRtEngine(t.workspaceSize, t.maxBatchSize, t.minSubgraphSize,
                                                               t.precisionType, t.useStatic, t.useCalibMode)
    ensures forall c :: c in TensorRtCalls(t).calls ==> IsTensorRtSetter(c)
    ensures TensorRtCalls(t).Aborted? <==> !AllConsistent(t.dynamicShapeInfo)
    ensures TensorRtCalls(t).Aborted? ==> |TensorRtCalls(t).calls| == 1
  {
    DynamicShapeCallsContents(t);
  }

  /**
   * In a completed TensorRT branch the dynamic-shape batch, issued exactly
   * when the list is non-empty, is the second call, describes every entry and
   * carries the plugin-FP16 switch; OSS and DLA are issued exactly when set.
   */
  lemma TensorRtCallsCompleted(t: TensorRT)
    requires TensorRtCalls(t).Completed?
    ensures var r := TensorRtCalls(t).calls;
            forall i :: 0 <= i < |r| ==> (r[i].SetTrtDynamicShapeInfo? <==> i == 1 && t.dynamicShapeInfo != [])
    ensures var r := TensorRtCalls(t).calls;
            t.dynamicShapeInfo != [] ==>
              && r[1].tensorNum == |t.dynamicShapeInfo|
              && Describes(ShapeBatch(r[1].tensorNames, r[1].shapesNum, r[1].minShapes, r[1].maxShapes,
                                      r[1].optimShapes), t.dynamicShapeInfo)
              && r[1].disablePluginFp16 == t.disablePluginFp16
    ensures EnableTensorRtOSS in TensorRtCalls(t).calls <==> t.enableOss
    ensures forall core: I32 :: EnableTensorRtDla(core) in TensorRtCalls(t).calls <==> t.dlaCore == Some(core)
  {
    DynamicShapeCallsContents(t);
    var batch, follow := DynamicShapeCalls(t).value, TensorRtFollowUps(t);
    var engine := TensorRtCalls(t).calls[0];
    assert TensorRtCalls(t).calls == [engine] + batch + follow;
    FollowUpsContents(t);
    assert forall x :: x in [engine] + batch ==> !x.EnableTensorRtOSS? && !x.EnableTensorRtDla?;
    assert forall i :: 0 <= i < |follow| ==> !follow[i].SetTrtDynamicShapeInfo?;
  }

  /** The follow-ups are OSS exactly when enabled and DLA(core) exactly when a core is given, and nothing else. */
  lemma FollowUpsContents(t: TensorRT)
    ensures forall x :: x in TensorRtFollowUps(t) ==> x.EnableTensorRtOSS? || x.EnableTensorRtDla?
    ensures EnableTensorRtOSS in TensorRtFollowUps(t) <==> t.enableOss
    ensures forall core: I32 :: EnableTensorRtDla(core) in TensorRtFollowUps(t) <==> t.dlaCore == Some(core)
  {
  }

  /** Before the TensorRT branch: the GPU switch, then multi-stream and cuDNN exactly when enabled, and no TensorRT setter. */
  lemma GpuBaseContents(g: Gpu)
    ensures GpuBaseCalls(g)[0] == EnableUseGpu(g.memoryPoolInitSizeMb, g.deviceId)
    ensures EnableGpuMultiStream in GpuBaseCalls(g) <==> g.enableMultiStream
    ensures EnableCudnn in GpuBaseCalls(g) <==> g.enableCudnn
    ensures forall c :: c in GpuBaseCalls(g) ==> !IsTensorRtSetter(c)
  {
  }

  /**
   * `Gpu::set_to`: the GPU switch first, multi-stream and cuDNN exactly when
   * enabled, TensorRT setters only when TensorRT is configured (then after the
   * base setters), and a panic exactly when the TensorRT branch panics.
   */
  lemma GpuCallsContents(g: Gpu)
    ensures |GpuCalls(g).calls| > 0 && GpuCalls(g).calls[0] == EnableUseGpu(g.memoryPoolInitSizeMb, g.deviceId)
    ensures EnableGpuMultiStream in GpuCalls(g).calls <==> g.enableMultiStream
    ensures EnableCudnn in GpuCalls(g).calls <==> g.enableCudnn
    ensures GpuCalls(g).Aborted? <==> g.enableTensorRt.Some? && TensorRtCalls(g.enableTensorRt.value).Aborted?
    ensures (exists c :: c in GpuCalls(g).calls && IsTensorRtSetter(c)) <==> g.enableTensorRt.Some?
    ensures g.enableTensorRt.Some? ==>
              GpuCalls(g).calls == GpuBaseCalls(g) + TensorRtCalls(g.enableTensorRt.value).calls
  {
    var base := GpuBaseCalls(g);
    GpuBaseContents(g);
    if g.enableTensorRt.Some? {
      var trt := TensorRtCalls(g.enableTensorRt.value).calls;
      TensorRtCallsShape(g.enableTensorRt.value);
      assert GpuCalls(g).calls == base + trt;
      assert (base + trt)[0] == base[0];
      assert trt[0] in base + trt;
      assert EnableGpuMultiStream !in trt && EnableCudnn !in trt;
    } else {
      assert GpuCalls(g).calls == base;
    }
  }

  /**
   * The TensorRT block of `Gpu::set_to`, issuing `TensorRtCalls(t)` after the
   * setters `before`; `completed` is false when the length check panics.
   */
  method TensorRtSetTo(t: TensorRT, e: Engine, cfg: Handle, ghost t0: seq<Call>,
                       ghost c0: map<Handle, seq<ConfigCall>>, ghost before: seq<ConfigCall>)
    returns (completed: bool)
    requires e.Valid() && e.Applied(t0, c0, cfg, before)
    modifies e
    ensures e.Valid() && e.next == old(e.next) && e.predictors == old(e.predictors)
    ensures completed <==> TensorRtCalls(t).Completed?
    ensures e.Applied(t0, c0, cfg, before + TensorRtCalls(t).calls)
  {
    var engine := EnableTensorRtEngine(t.workspaceSize, t.maxBatchSize, t.minSubgraphSize,
                                       t.precisionType, t.useStatic, t.useCalibMode);
    Issue(e, cfg, engine, t0, c0, before);
    ghost var done := before + [engine];
    var infos := t.dynamicShapeInfo;
    if infos != [] {
      var batch := CollectDynamicShapes(infos);
      if batch.None? {
        return false;
      }
      var b := batch.value;
      var s := SetTrtDynamicShapeInfo(|infos|, b.names, b.shapesNum, b.minShapes, b.maxShapes,
                                      b.optimShapes, t.disablePluginFp16);
      Issue(e, cfg, s, t0, c0, done);
    } else {
      assert done + [] == done;
    }
    done := done + DynamicShapeCalls(t).value;
    if t.enableOss {
      Issue(e, cfg, EnableTensorRtOSS, t0, c0, done);
      done := done + [EnableTensorRtOSS];
    }
    if t.dlaCore.Some? {
      Issue(e, cfg, EnableTensorRtDla(t.dlaCore.value), t0, c0, done);
      done := done + [EnableTensorRtDla(t.dlaCore.value)];
    }
    assert done == before + [engine] + DynamicShapeCalls(t).value + TensorRtFollowUps(t);
    Regroup(before, [engine], DynamicShapeCalls(t).value, TensorRtFollowUps(t));
    completed := true;
  }

  /**
   * `Gpu::set_to`: issues `GpuCalls(g)` on `cfg` after the setters `before`;
   * `completed` is false when the dynamic-shape length check panics.
   */
  method GpuSetTo(g: Gpu, e: Engine, cfg: Handle, ghost t0: seq<Call>,
                  ghost c0: map<Handle, seq<ConfigCall>>, ghost before: seq<ConfigCall>)
    returns (completed: bool)
    requires e.Valid() && e.Applied(t0, c0, cfg, before)
    modifies e
    ensures e.Valid() && e.next == old(e.next) && e.predictors == old(e.predictors)
    ensures completed <==> GpuCalls(g).Completed?
    ensures e.Applied(t0, c0, cfg, before + GpuCalls(g).calls)
  {
    var s := EnableUseGpu(g.memoryPoolInitSizeMb, g.deviceId);
    Issue(e, cfg, s, t0, c0, before);
    ghost var done := before + [s];
    if g.enableMultiStream {
      Issue(e, cfg, EnableGpuMultiStream, t0, c0, done);
      done := done + [EnableGpuMultiStream];
    }
    if g.enableCudnn {
      Issue(e, cfg, EnableCudnn, t0, c0, done);
      done := done + [EnableCudnn];
    }
    assert done == before + GpuBaseCalls(g);
    if g.enableTensorRt.Some? {
      completed := TensorRtSetTo(g.enableTensorRt.value, e, cfg, t0, c0, done);
      Assoc(before, GpuBaseCalls(g), TensorRtCalls(g.enableTensorRt.value).calls);
    } else {
      completed := true;
    }
  }

  // ---------------------------------------------------------------- ordering within a section

  /** The MKLDNN setters come in table order, each at most once, inside their band. */
  lemma MkldnnOrdered(m: Mkldnn)
    ensures Ordered(MkldnnCalls(m)) && InBand(MkldnnCalls(m), 2, GpuBegin)
  {
    var cache, op, bf16 := CacheCalls(m.cacheSize), OpCalls(m.op), Bfloat16Calls(m.opF16);
    assert Ordered(cache) && InBand(cache, 2, 3);
    assert Ordered(op) && InBand(op, 3, 4);
    assert Ordered(bf16) && InBand(bf16, 4, GpuBegin);
    OrderedConcat(cache, op, 2, 3, 4);
    OrderedConcat(cache + op, bf16, 2, 4, GpuBegin);
  }

  /** The CPU setters come in table order, each at most once, all inside the CPU band. */
  lemma CpuOrdered(cpu: Cpu)
    ensures Ordered(CpuCalls(cpu)) && InBand(CpuCalls(cpu), CpuBegin, GpuBegin)
  {
    var threads := ThreadCalls(cpu.threads);
    assert Ordered(threads) && InBand(threads, CpuBegin, 2);
    if cpu.mkldnn.Some? {
      MkldnnOrdered(cpu.mkldnn.value);
      OrderedConcat(threads, MkldnnCalls(cpu.mkldnn.value), CpuBegin, 2, GpuBegin);
    } else {
      assert CpuCalls(cpu) == threads + [];
      OrderedConcat(threads, [], CpuBegin, 2, GpuBegin);
    }
  }

  /** OSS comes before DLA, each at most once, inside the follow-up band. */
  lemma FollowUpsOrdered(t: TensorRT)
    ensures Ordered(TensorRtFollowUps(t)) && InBand(TensorRtFollowUps(t), 11, XpuBegin)
  {
    var oss := if t.enableOss then [EnableTensorRtOSS] else [];
    var dla := match t.dlaCore case Some(core) => [EnableTensorRtDla(core)] case None => [];
    OrderedConcat(oss, dla, 11, 12, XpuBegin);
  }

  /**
   * The TensorRT setters come in table order inside their band: engine,
   * dynamic shapes, OSS, DLA.
   */
  lemma TensorRtOrdered(t: TensorRT)
    ensures Ordered(TensorRtCalls(t).calls) && InBand(TensorRtCalls(t).calls, TensorRtBegin, XpuBegin)
  {
    var engine := [EnableTensorRtEngine(t.workspaceSize, t.maxBatchSize, t.minSubgraphSize,
                                        t.precisionType, t.useStatic, t.useCalibMode)];
    if DynamicShapeCalls(t).Some? {
      var batch := DynamicShapeCalls(t).value;
      assert Ordered(batch) && InBand(batch, 10, 11);
      FollowUpsOrdered(t);
      OrderedConcat(engine, batch, TensorRtBegin, 10, 11);
      OrderedConcat(engine + batch, TensorRtFollowUps(t), TensorRtBegin, 11, XpuBegin);
    }
  }

  /** The GPU switch, multi-stream and cuDNN come in that order, before the TensorRT band. */
  lemma GpuBaseOrdered(g: Gpu)
    ensures Ordered(GpuBaseCalls(g)) && InBand(GpuBaseCalls(g), GpuBegin, TensorRtBegin)
  {
    var gpu := [EnableUseGpu(g.memoryPoolInitSizeMb, g.deviceId)];
    var stream := if g.enableMultiStream then [EnableGpuMultiStream] else [];
    var cudnn := if g.enableCudnn then [EnableCudnn] else [];
    OrderedConcat(gpu, stream, GpuBegin, 7, 8);
    OrderedConcat(gpu + stream, cudnn, GpuBegin, 8, TensorRtBegin);
  }

  /** The GPU setters, TensorRT included, come in table order inside the GPU band. */
  lemma GpuOrdered(g: Gpu)
    ensures Ordered(GpuCalls(g).calls) && InBand(GpuCalls(g).calls, GpuBegin, XpuBegin)
  {
    GpuBaseOrdered(g);
    if g.enableTensorRt.Some? {
      TensorRtOrdered(g.enableTensorRt.value);
      OrderedConcat(GpuBaseCalls(g), TensorRtCalls(g.enableTensorRt.value).calls, GpuBegin, TensorRtBegin, XpuBegin);
    } else {
      InBandWiden(GpuBaseCalls(g), GpuBegin, TensorRtBegin, XpuBegin);
    }
  }

  // ---------------------------------------------------------------- XPU and ONNX Runtime

  /** The autotune-file argument: the null pointer when no file is given. */
  function AutotuneFileArg(file: Option<string>): (r: CStr)
    ensures r.Null? <==> file.None?
    ensures file.Some? ==> r == CString(file.value)
  {
    match file
    case None => Null
    case Some(f) => CString(f)
  }

  /** The single setter `Xpu::set_to` issues, carrying every field. */
  function XpuCalls(x: Xpu): (r: seq<ConfigCall>)
    ensures |r| == 1 && r[0].EnableXpu?
    ensures r[0].l3WorkspaceSize == x.l3WorkspaceSizeMb && r[0].locked == x.locked
    ensures r[0].autotune == x.autorune && r[0].precisionName == x.precision
    ensures r[0].adaptiveSeqlen == x.adaptiveSeqlen
    ensures r[0].autotuneFile.Null? <==> x.autotuneFile.None?
    ensures x.autotuneFile.Some? ==> r[0].autotuneFile == CString(x.autotuneFile.value)
  {
    [EnableXpu(x.l3WorkspaceSizeMb, x.locked, x.autorune, AutotuneFileArg(x.autotuneFile),
               x.precision, x.adaptiveSeqlen)]
  }

  /** `Xpu::set_to`: issues `XpuCalls(x)` on `cfg` after the setters `before`. */
  method XpuSetTo(x: Xpu, e: Engine, cfg: Handle, ghost t0: seq<Call>,
                  ghost c0: map<Handle, seq<ConfigCall>>, ghost before: seq<ConfigCall>)
    requires e.Valid() && e.Applied(t0, c0, cfg, before)
    modifies e
    ensures e.Valid() && e.next == old(e.next) && e.predictors == old(e.predictors)
    ensures e.Applied(t0, c0, cfg, before + XpuCalls(x))
  {
    var af := AutotuneFileArg(x.autotuneFile);
    Issue(e, cfg, EnableXpu(x.l3WorkspaceSizeMb, x.locked, x.autorune, af, x.precision, x.adaptiveSeqlen),
          t0, c0, before);
  }

  /** The setters `ONNXRuntime::set_to` issues. */
  function OnnxRuntimeCalls(o: ONNXRuntime): (r: seq<ConfigCall>)
    ensures |r| > 0 && r[0] == EnableONNXRuntime
    ensures EnableORTOptimization in r <==> o.enableOptimization
  {
    [EnableONNXRuntime] + (if o.enableOptimization then [EnableORTOptimization] else [])
  }

  /** `ONNXRuntime::set_to`: issues `OnnxRuntimeCalls(o)` on `cfg` after the setters `before`. */
  method OnnxRuntimeSetTo(o: ONNXRuntime, e: Engine, cfg: Handle, ghost t0: seq<Call>,
                          ghost c0: map<Handle, seq<ConfigCall>>, ghost before: seq<ConfigCall>)
    requires e.Valid() && e.Applied(t0, c0, cfg, before)
    modifies e
    ensures e.Valid() && e.next == old(e.next) && e.predictors == old(e.predictors)
    ensures e.Applied(t0, c0, cfg, before + OnnxRuntimeCalls(o))
  {
    Issue(e, cfg, EnableONNXRuntime, t0, c0, before);
    if o.enableOptimization {
      Issue(e, cfg, EnableORTOptimization, t0, c0, before + [EnableONNXRuntime]);
      assert before + [EnableONNXRuntime] + [EnableORTOptimization] == before + OnnxRuntimeCalls(o);
    } else {
      assert before + [EnableONNXRuntime] == before + OnnxRuntimeCalls(o);
    }
  }

  /** The XPU setter lies in the XPU band. */
  lemma XpuOrdered(x: Xpu)
    ensures Ordered(XpuCalls(x)) && InBand(XpuCalls(x), XpuBegin, OnnxBegin)
  {
    assert Rank(XpuCalls(x)[0]) == XpuBegin;
  }

  /** The ONNX Runtime setters come in table order inside their band: backend first, then optimization. */
  lemma OnnxRuntimeOrdered(o: ONNXRuntime)
    ensures Ordered(OnnxRuntimeCalls(o)) && InBand(OnnxRuntimeCalls(o), OnnxBegin, GlobalBegin)
  {
    var opt := if o.enableOptimization then [EnableORTOptimization] else [];
    assert OnnxRuntimeCalls(o) == [EnableONNXRuntime] + opt;
    OrderedConcat([EnableONNXRuntime], opt, OnnxBegin, OnnxBegin + 1, GlobalBegin);
  }
}
