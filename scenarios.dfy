/**
 * Concrete configurations and the setters `Predictor::new` issues for them:
 * the defaults, a CPU thread count, a GPU with cuDNN and TensorRT, and the
 * two ways a TensorRT dynamic-shape list can look when its entries differ in
 * length.
 */
module Scenarios {
  import opened Common
  import opened Ffi
  import opened Setting
  import opened Configuration
  import opened Predictors

  /** The setters every translation that does not panic ends with, for the default flags. */
  const DefaultGlobals: seq<ConfigCall> := [SwitchIrOptim(1), SwitchIrDebug(0), EnableMemoryOptim(1)]

  /** `Config::new` issues the model section, IR optimization on, IR debugging off and memory reuse on, and nothing else. */
  lemma DefaultTranslation(m: Model)
    ensures Translate(New(m)) == Completed([ModelSection(m)] + DefaultGlobals)
  {
    var c := New(m);
    ConcatSix(Parts(c));
    assert GlobalCalls(c) == DefaultGlobals;
  }

  /** Four CPU threads on top of the defaults add exactly the thread-count setter after the model section. */
  lemma FourThreads(m: Model)
    ensures Translate(WithCpu(New(m), Cpu(Some(4), None))) ==
              Completed([ModelSection(m), SetCpuMathLibraryNumThreads(4)] + DefaultGlobals)
  {
    var c := WithCpu(New(m), Cpu(Some(4), None));
    assert c.cpu == Cpu(Some(4), None);
    assert ThreadCalls(Some(4)) == [SetCpuMathLibraryNumThreads(4)];
    assert CpuCalls(c.cpu) == [SetCpuMathLibraryNumThreads(4)];
    ConcatSix(Parts(c));
    assert GlobalCalls(c) == DefaultGlobals;
  }

  /** A TensorRT engine of 1 MiB workspace, batch 1, subgraphs of at least 3 operators, FP32, with `infos`. */
  function TensorRtWith(infos: seq<DynamicShapeInfo>): (t: TensorRT)
    ensures t.dynamicShapeInfo == infos && !t.enableOss && t.dlaCore.None?
  {
    TensorRT(0x10_0000, 1, 3, Float32, false, false, infos, false, false, None)
  }

  /** The GPU with a 512 MiB memory pool on device 0, cuDNN on, and TensorRT with `infos`. */
  function GpuWith(m: Model, infos: seq<DynamicShapeInfo>): (c: Config)
    ensures c.gpu == Some(Gpu(512, 0, false, true, Some(TensorRtWith(infos))))
  {
    WithGpu(New(m), Gpu(512, 0, false, true, Some(TensorRtWith(infos))))
  }

  /** The engine setter for `TensorRtWith`. */
  const Engine1MiB: ConfigCall := EnableTensorRtEngine(0x10_0000, 1, 3, Float32, false, false)

  /** For `GpuWith`, the six sections: the model, no CPU setter, the GPU section, no XPU or ONNX Runtime setter, the defaults. */
  lemma GpuWithParts(m: Model, infos: seq<DynamicShapeInfo>)
    ensures var trt := TensorRtCalls(TensorRtWith(infos));
            && Parts(GpuWith(m, infos)) ==
                 [[ModelSection(m)], [], [EnableUseGpu(512, 0), EnableCudnn] + trt.calls, [], [], DefaultGlobals]
            && (GpuSection(GpuWith(m, infos).gpu).Aborted? <==> trt.Aborted?)
  {
    var c := GpuWith(m, infos);
    var trt := TensorRtCalls(TensorRtWith(infos));
    assert CpuCalls(c.cpu) == [];
    assert GpuBaseCalls(c.gpu.value) == [EnableUseGpu(512, 0), EnableCudnn];
    assert GlobalCalls(c) == DefaultGlobals;
  }

  /**
   * For `GpuWith`, the model section, the GPU switch and cuDNN come first,
   * then whatever the TensorRT branch issues, then the default global setters
   * unless the branch panics.
   */
  lemma GpuWithTranslation(m: Model, infos: seq<DynamicShapeInfo>)
    ensures var trt := TensorRtCalls(TensorRtWith(infos));
            var head := [ModelSection(m), EnableUseGpu(512, 0), EnableCudnn];
            Translate(GpuWith(m, infos)) ==
              if trt.Completed? then Completed(head + trt.calls + DefaultGlobals) else Aborted(head + trt.calls)
  {
    var trt := TensorRtCalls(TensorRtWith(infos));
    var p := Parts(GpuWith(m, infos));
    GpuWithParts(m, infos);
    ConcatSix(p);
    if trt.Completed? {
      assert Concat(p, 6) == [ModelSection(m), EnableUseGpu(512, 0), EnableCudnn] + trt.calls + DefaultGlobals;
    } else {
      assert Concat(p, 3) == [ModelSection(m), EnableUseGpu(512, 0), EnableCudnn] + trt.calls;
    }
  }

  /**
   * GPU, cuDNN and the TensorRT engine are issued in that order; an empty
   * dynamic-shape list issues no batch setter.
   */
  lemma GpuWithTensorRt(m: Model)
    ensures Translate(GpuWith(m, [])) ==
              Completed([ModelSection(m), EnableUseGpu(512, 0), EnableCudnn, Engine1MiB] + DefaultGlobals)
  {
    var t := TensorRtWith([]);
    assert DynamicShapeCalls(t) == Some([]);
    assert TensorRtCalls(t) == Completed([Engine1MiB]);
    GpuWithTranslation(m, []);
  }

  const Rank3: DynamicShapeInfo := DynamicShapeInfo("image", [1, 3, 224], [1, 3, 448], [1, 3, 320])
  const Rank4: DynamicShapeInfo := DynamicShapeInfo("mask", [1, 1, 224, 224], [1, 1, 448, 448], [1, 1, 320, 320])

  /** The batch setter for `Rank3` and `Rank4`: two tensors, of 3 and 4 dimensions. */
  const TwoRanksBatch: ConfigCall :=
    SetTrtDynamicShapeInfo(2, ["image", "mask"], [3, 4], [Rank3.minShape, Rank4.minShape],
                           [Rank3.maxShape, Rank4.maxShape], [Rank3.optimShape, Rank4.optimShape], false)

  /** Both entries pass the length check, so the batch setter follows the engine setter. */
  lemma TwoRanksTensorRt()
    ensures TensorRtCalls(TensorRtWith([Rank3, Rank4])) == Completed([Engine1MiB, TwoRanksBatch])
  {
    var infos := [Rank3, Rank4];
    assert CheckAndGetShapeSize(infos[0]).Some? && CheckAndGetShapeSize(infos[1]).Some?;
    assert AllConsistent(infos);
    var r := ShapeBatchOf(infos).value;
    assert Describes(r, infos);
    assert r == ShapeBatch(["image", "mask"], [3, 4], [Rank3.minShape, Rank4.minShape],
                           [Rank3.maxShape, Rank4.maxShape], [Rank3.optimShape, Rank4.optimShape]);
    assert DynamicShapeCalls(TensorRtWith(infos)) == Some([TwoRanksBatch]);
  }

  /**
   * The length check compares the three shapes of one entry, not the entries
   * with each other: an entry of rank 3 next to one of rank 4 passes, and the
   * batch setter carries one length per entry.
   */
  lemma EntriesOfDifferentRanks(m: Model)
    ensures Translate(GpuWith(m, [Rank3, Rank4])) ==
              Completed([ModelSection(m), EnableUseGpu(512, 0), EnableCudnn, Engine1MiB, TwoRanksBatch]
                        + DefaultGlobals)
  {
    TwoRanksTensorRt();
    GpuWithTranslation(m, [Rank3, Rank4]);
  }

  const Mismatched: DynamicShapeInfo := DynamicShapeInfo("image", [1, 3, 224], [1, 3, 448, 448], [1, 3, 320])

  /**
   * An entry whose minimum shape has 3 dimensions and whose maximum shape has
   * 4 panics the translation, after the TensorRT engine setter and before
   * any batch setter or any setter of the later sections.
   */
  lemma MismatchedEntry(m: Model)
    ensures Translate(GpuWith(m, [Mismatched])) ==
              Aborted([ModelSection(m), EnableUseGpu(512, 0), EnableCudnn, Engine1MiB])
  {
    assert [Mismatched][..0] == [];
    assert CheckAndGetShapeSize(Mismatched).None?;
    assert ShapeBatchOf([Mismatched]).None?;
    assert TensorRtCalls(TensorRtWith([Mismatched])) == Aborted([Engine1MiB]);
    GpuWithTranslation(m, [Mismatched]);
  }
}
