/**
 * The native inference engine as this layer sees it: opaque handles and the
 * foreign entry points (`PD_*`). What the engine does with a handle is not
 * modelled; every foreign call is recorded in a trace, and the engine keeps a
 * table of the configuration and predictor handles that are live.
 */
module Ffi {
  import opened Common

  /** An opaque native handle (a configuration or a predictor). */
  type Handle = nat

  /** A `*const c_char` argument: the null pointer or a null-terminated string. */
  datatype CStr = Null | CString(text: string)

  /**
   * The `PD_Config*` setters, one constructor per foreign function, applied to
   * a configuration handle. `ModelSection` and `LiteSection` stand for the whole
   * of `Model::set_to` and `LiteEngine::set_to`, whose calls are not modelled.
   */
  datatype ConfigCall =
    | ModelSection(model: Model)
    | SetCpuMathLibraryNumThreads(threads: I32)
    | SetMkldnnCacheCapacity(capacity: I32)
    | SetMkldnnOp(opNum: nat, ops: seq<string>)
    | EnableMkldnnBfloat16
    | SetBfloat16Op(opNum: nat, ops: seq<string>)
    | EnableUseGpu(memoryPoolInitSizeMb: U64, deviceId: I32)
    | EnableGpuMultiStream
    | EnableCudnn
    | EnableTensorRtEngine(workspaceSize: I32, maxBatchSize: I32, minSubgraphSize: I32,
                           precision: Precision, useStatic: bool, useCalibMode: bool)
    | SetTrtDynamicShapeInfo(tensorNum: nat, tensorNames: seq<string>, shapesNum: seq<nat>,
                             minShapes: seq<seq<I32>>, maxShapes: seq<seq<I32>>,
                             optimShapes: seq<seq<I32>>, disablePluginFp16: bool)
    | EnableTensorRtOSS
    | EnableTensorRtDla(dlaCore: I32)
    | EnableXpu(l3WorkspaceSize: I32, locked: bool, autotune: bool, autotuneFile: CStr,
                precisionName: string, adaptiveSeqlen: bool)
    | EnableONNXRuntime
    | EnableORTOptimization
    | SwitchIrOptim(flag: PdBool)
    | SwitchIrDebug(flag: PdBool)
    | LiteSection(lite: LiteEngine)
    | EnableMemoryOptim(flag: PdBool)
    | SetOptimCacheDir(dir: string)
    | DisableFCPadding
    | ProfileEnabled
    | DisableGlogInfo

  /**
   * The ordering table: the position of each setter in the order in which
   * `Predictor::new` and the `set_to` methods issue them. The bands below
   * group the setters by the section that issues them.
   */
  function Rank(c: ConfigCall): nat
  {
    match c
    case ModelSection(_) => 0
    case SetCpuMathLibraryNumThreads(_) => 1
    case SetMkldnnCacheCapacity(_) => 2
    case SetMkldnnOp(_, _) => 3
    case EnableMkldnnBfloat16 => 4
    case SetBfloat16Op(_, _) => 5
    case EnableUseGpu(_, _) => 6
    case EnableGpuMultiStream => 7
    case EnableCudnn => 8
    case EnableTensorRtEngine(_, _, _, _, _, _) => 9
    case SetTrtDynamicShapeInfo(_, _, _, _, _, _, _) => 10
    case EnableTensorRtOSS => 11
    case EnableTensorRtDla(_) => 12
    case EnableXpu(_, _, _, _, _, _) => 13
    case EnableONNXRuntime => 14
    case EnableORTOptimization => 15
    case SwitchIrOptim(_) => 16
    case SwitchIrDebug(_) => 17
    case LiteSection(_) => 18
    case EnableMemoryOptim(_) => 19
    case SetOptimCacheDir(_) => 20
    case DisableFCPadding => 21
    case ProfileEnabled => 22
    case DisableGlogInfo => 23
  }

  const CpuBegin: nat := 1
  const GpuBegin: nat := 6
  const TensorRtBegin: nat := 9
  const XpuBegin: nat := 13
  const OnnxBegin: nat := 14
  const GlobalBegin: nat := 16
  const RankEnd: nat := 24

  /** The calls follow the ordering table: each one ranks strictly after the one before it. */
  ghost predicate Ordered(calls: seq<ConfigCall>)
    decreases |calls|
  {
    |calls| <= 1 || (Rank(calls[0]) < Rank(calls[1]) && Ordered(calls[1..]))
  }

  /** Every call lies in the band [lo, hi) of the ordering table. */
  ghost predicate InBand(calls: seq<ConfigCall>, lo: nat, hi: nat)
  {
    forall i :: 0 <= i < |calls| ==> lo <= Rank(calls[i]) < hi
  }

  /** In an ordered list every call ranks after all the calls before it, so no setter occurs twice. */
  lemma {:induction false} OrderedPairwise(calls: seq<ConfigCall>)
    requires Ordered(calls)
    ensures forall i, j :: 0 <= i < j < |calls| ==> Rank(calls[i]) < Rank(calls[j])
    decreases |calls|
  {
    if |calls| > 1 {
      var tail := calls[1..];
      OrderedPairwise(tail);
      forall i, j | 0 <= i < j < |calls| ensures Rank(calls[i]) < Rank(calls[j]) {
        assert calls[j] == tail[j - 1];
        if i > 0 {
          assert calls[i] == tail[i - 1];
        } else if j > 1 {
          assert calls[1] == tail[0];
        }
      }
    }
  }

  /** A list inside a band is inside every band that contains it. */
  lemma InBandWiden(a: seq<ConfigCall>, lo: nat, hi: nat, wider: nat)
    requires InBand(a, lo, hi) && hi <= wider
    ensures InBand(a, lo, wider)
  {
  }

  /** Lists in consecutive bands concatenate to a list in the union of the bands. */
  lemma InBandConcat(a: seq<ConfigCall>, b: seq<ConfigCall>, lo: nat, mid: nat, hi: nat)
    requires lo <= mid <= hi
    requires InBand(a, lo, mid) && InBand(b, mid, hi)
    ensures InBand(a + b, lo, hi)
  {
    forall i | 0 <= i < |a + b| ensures lo <= Rank((a + b)[i]) < hi {
      if i < |a| {
        assert (a + b)[i] == a[i];
      } else {
        assert (a + b)[i] == b[i - |a|];
      }
    }
  }

  /** Dropping the first element of a non-empty list commutes with appending. */
  lemma TailOfAppend<T>(a: seq<T>, b: seq<T>)
    requires a != []
    ensures (a + b)[1..] == a[1..] + b && (a + b)[0] == a[0]
    ensures |a| > 1 ==> (a + b)[1] == a[1]
  {
  }

  /** Dropping the first call keeps a list inside its band. */
  lemma InBandTail(a: seq<ConfigCall>, lo: nat, hi: nat)
    requires InBand(a, lo, hi) && a != []
    ensures InBand(a[1..], lo, hi)
  {
    forall i | 0 <= i < |a| - 1 ensures lo <= Rank(a[1..][i]) < hi {
      assert a[1..][i] == a[i + 1];
    }
  }

  /** A list in table order whose calls all rank below `mid`, followed by one in table order from `mid` on, is in table order. */
  lemma {:induction false} OrderedAppend(a: seq<ConfigCall>, b: seq<ConfigCall>, lo: nat, mid: nat, hi: nat)
    requires Ordered(a) && InBand(a, lo, mid)
    requires Ordered(b) && InBand(b, mid, hi)
    ensures Ordered(a + b)
    decreases |a|
  {
    if a == [] {
      assert a + b == b;
    } else if |a| == 1 {
      TailOfAppend(a, b);
      assert a[1..] + b == b;
      if b != [] {
        assert (a + b)[1] == b[0];
        assert Rank(a[0]) < mid <= Rank(b[0]);
      }
    } else {
      var tail := a[1..];
      assert Rank(a[0]) < Rank(a[1]) && Ordered(tail);
      InBandTail(a, lo, mid);
      OrderedAppend(tail, b, lo, mid, hi);
      TailOfAppend(a, b);
    }
  }

  /** Lists in consecutive bands, each in table order, concatenate to a list in table order. */
  lemma OrderedConcat(a: seq<ConfigCall>, b: seq<ConfigCall>, lo: nat, mid: nat, hi: nat)
    requires lo <= mid <= hi
    requires Ordered(a) && InBand(a, lo, mid)
    requires Ordered(b) && InBand(b, mid, hi)
    ensures Ordered(a + b) && InBand(a + b, lo, hi)
  {
    InBandConcat(a, b, lo, mid, hi);
    OrderedAppend(a, b, lo, mid, hi);
  }

  /** Four lists in consecutive bands, each in table order, concatenate to a list in table order. */
  lemma OrderedConcat4(a: seq<ConfigCall>, b: seq<ConfigCall>, c: seq<ConfigCall>, d: seq<ConfigCall>,
                       r0: nat, r1: nat, r2: nat, r3: nat, r4: nat)
    requires r0 <= r1 <= r2 <= r3 <= r4
    requires Ordered(a) && InBand(a, r0, r1) && Ordered(b) && InBand(b, r1, r2)
    requires Ordered(c) && InBand(c, r2, r3) && Ordered(d) && InBand(d, r3, r4)
    ensures Ordered(a + b + c + d) && InBand(a + b + c + d, r0, r4)
  {
    OrderedConcat(a, b, r0, r1, r2);
    OrderedConcat(a + b, c, r0, r2, r3);
    OrderedConcat(a + b + c, d, r0, r3, r4);
  }

  /** An ordered list that ends with the TensorRT engine call holds no dynamic-shape batch, which ranks after it. */
  lemma NoShapeInfoBeforeEngine(calls: seq<ConfigCall>)
    requires Ordered(calls) && |calls| > 0 && calls[|calls| - 1].EnableTensorRtEngine?
    ensures forall i :: 0 <= i < |calls| ==> !calls[i].SetTrtDynamicShapeInfo?
  {
    OrderedPairwise(calls);
    forall i | 0 <= i < |calls| - 1 ensures !calls[i].SetTrtDynamicShapeInfo? {
      assert Rank(calls[i]) < Rank(calls[|calls| - 1]);
    }
  }

  /** The calls of `calls` whose rank lies in the band [lo, hi), in their original order. */
  function Section(calls: seq<ConfigCall>, lo: nat, hi: nat): (r: seq<ConfigCall>)
    ensures |r| <= |calls|
    decreases |calls|
  {
    if calls == [] then []
    else
      var init, last := Section(calls[..|calls| - 1], lo, hi), calls[|calls| - 1];
      if lo <= Rank(last) < hi then init + [last] else init
  }

  /** A call is in a section exactly when it is one of the calls and its rank lies in the band. */
  lemma {:induction false} SectionMembers(calls: seq<ConfigCall>, lo: nat, hi: nat)
    ensures forall x :: x in Section(calls, lo, hi) <==> x in calls && lo <= Rank(x) < hi
    decreases |calls|
  {
    if calls != [] {
      var init := calls[..|calls| - 1];
      SectionMembers(init, lo, hi);
      assert calls == init + [calls[|calls| - 1]];
    }
  }

  /** Taking a band commutes with concatenation. */
  lemma {:induction false} SectionAppend(a: seq<ConfigCall>, b: seq<ConfigCall>, lo: nat, hi: nat)
    ensures Section(a + b, lo, hi) == Section(a, lo, hi) + Section(b, lo, hi)
    decreases |b|
  {
    if b == [] {
      assert a + b == a;
    } else {
      var init := b[..|b| - 1];
      assert (a + b)[..|a + b| - 1] == a + init;
      SectionAppend(a, init, lo, hi);
    }
  }

  /**
   * A list that lies in the band [alo, ahi) is its own section for every
   * wider band, and has an empty section for every disjoint band.
   */
  lemma {:induction false} SectionOfBanded(a: seq<ConfigCall>, alo: nat, ahi: nat, lo: nat, hi: nat)
    requires InBand(a, alo, ahi)
    ensures lo <= alo && ahi <= hi ==> Section(a, lo, hi) == a
    ensures ahi <= lo || hi <= alo ==> Section(a, lo, hi) == []
    decreases |a|
  {
    if a != [] {
      var init := a[..|a| - 1];
      assert InBand(init, alo, ahi) by {
        forall i | 0 <= i < |init| ensures alo <= Rank(init[i]) < ahi {
          assert init[i] == a[i];
        }
      }
      SectionOfBanded(init, alo, ahi, lo, hi);
      assert a == init + [a[|a| - 1]];
    }
  }

  /**
   * Appending a list that lies in the band [llo, lhi) adds all of it to a
   * section of a wider band and nothing to a section of a disjoint band.
   */
  lemma SectionOfAppendBanded(init: seq<ConfigCall>, last: seq<ConfigCall>, llo: nat, lhi: nat, lo: nat, hi: nat)
    requires InBand(last, llo, lhi)
    ensures lo <= llo && lhi <= hi ==> Section(init + last, lo, hi) == Section(init, lo, hi) + last
    ensures lhi <= lo || hi <= llo ==> Section(init + last, lo, hi) == Section(init, lo, hi)
  {
    SectionAppend(init, last, lo, hi);
    SectionOfBanded(last, llo, lhi, lo, hi);
    assert Section(init, lo, hi) + [] == Section(init, lo, hi);
  }

  /** Which side of a predictor a tensor lookup addresses. */
  datatype Side = InputSide | OutputSide

  /** The tensor handle the engine returns for a name: a slot of one predictor. */
  datatype TensorSlot = TensorSlot(predictor: Handle, side: Side, name: string)

  /** One foreign call, with the handles it receives and returns. */
  datatype Call =
    | ConfigCreate(config: Handle)
    | Configure(config: Handle, setting: ConfigCall)
    | PredictorCreate(config: Handle, predictor: Handle)
    | PredictorClone(predictor: Handle, clone: Handle)
    | PredictorRun(predictor: Handle)
    | PredictorGetInputHandle(predictor: Handle, name: string)
    | PredictorGetOutputHandle(predictor: Handle, name: string)
    | PredictorDestroy(predictor: Handle)

  /** The trace of applying `settings`, in order, to the configuration handle `cfg`. */
  function On(cfg: Handle, settings: seq<ConfigCall>): (r: seq<Call>)
    ensures |r| == |settings|
  {
    seq(|settings|, i requires 0 <= i < |settings| => Configure(cfg, settings[i]))
  }

  /** Regrouping a concatenation of three lists. */
  lemma Assoc<T>(a: seq<T>, b: seq<T>, c: seq<T>)
    ensures a + (b + c) == a + b + c
  {
  }

  /** Regrouping a concatenation of four lists. */
  lemma Regroup<T>(a: seq<T>, b: seq<T>, c: seq<T>, d: seq<T>)
    ensures a + (b + c + d) == a + b + c + d
  {
  }

  /** Regrouping a concatenation of five lists. */
  lemma Regroup5<T>(a: seq<T>, b: seq<T>, c: seq<T>, d: seq<T>, e: seq<T>)
    ensures a + (b + c + d + e) == a + b + c + d + e
  {
  }

  /** Applying `a` and then `b` leaves the same trace as applying `a + b`. */
  lemma OnAppend(cfg: Handle, a: seq<ConfigCall>, b: seq<ConfigCall>)
    ensures On(cfg, a + b) == On(cfg, a) + On(cfg, b)
  {
    var l, r := On(cfg, a + b), On(cfg, a) + On(cfg, b);
    forall i | 0 <= i < |l| ensures l[i] == r[i] {
      if i < |a| {
        assert (a + b)[i] == a[i];
      } else {
        assert (a + b)[i] == b[i - |a|];
      }
    }
  }

  /**
   * The native engine: the trace of foreign calls so far, the live
   * configuration handles with the setters applied to each, the live predictor
   * handles with the setters each was built from, and the next handle to issue.
   */
  class Engine {
    var trace: seq<Call>
    var configs: map<Handle, seq<ConfigCall>>
    var predictors: map<Handle, seq<ConfigCall>>
    var next: Handle

    /** Handles are issued once; a live predictor handle has never been destroyed. */
    ghost predicate Valid()
      reads this
    {
      && (forall h :: h in configs ==> h < next)
      && (forall h :: h in predictors ==> h < next)
      && configs.Keys !! predictors.Keys
      && (forall i :: 0 <= i < |trace| && trace[i].PredictorDestroy? ==>
            trace[i].predictor < next && trace[i].predictor !in predictors)
    }

    /**
     * Starting from trace `t0` and configuration table `c0`, exactly `calls`
     * have been applied to `cfg`, in order, and nothing else has happened.
     */
    ghost predicate Applied(t0: seq<Call>, c0: map<Handle, seq<ConfigCall>>, cfg: Handle, calls: seq<ConfigCall>)
      reads this
    {
      cfg in c0 && trace == t0 + On(cfg, calls) && configs == c0[cfg := c0[cfg] + calls]
    }

    /** Nothing has been applied yet: the starting point of a run of `Issue` calls. */
    lemma AppliedNothing(cfg: Handle)
      requires cfg in configs
      ensures Applied(trace, configs, cfg, [])
    {
      assert configs[cfg] + [] == configs[cfg];
      assert configs[cfg := configs[cfg]] == configs;
      assert trace + On(cfg, []) == trace;
    }

    /** The engine has handed out `h` at some point. */
    ghost predicate Issued(h: Handle)
      reads this
    {
      h < next
    }

    constructor ()
      ensures Valid()
      ensures trace == [] && configs == map[] && predictors == map[]
    {
      trace, configs, predictors, next := [], map[], map[], 0;
    }

    /** `PD_ConfigCreate`: a fresh, empty configuration handle. */
    method ConfigCreate() returns (cfg: Handle)
      requires Valid()
      modifies this
      ensures Valid()
      ensures !old(Issued(cfg)) && Issued(cfg)
      ensures configs == old(configs)[cfg := []] && predictors == old(predictors)
      ensures trace == old(trace) + [Call.ConfigCreate(cfg)]
    {
      cfg := next;
      next := next + 1;
      configs := configs[cfg := []];
      trace := trace + [Call.ConfigCreate(cfg)];
    }

    /** One `PD_Config*` setter applied to a live configuration handle. */
    method Configure(cfg: Handle, s: ConfigCall)
      requires Valid() && cfg in configs
      modifies this
      ensures Valid() && next == old(next)
      ensures configs == old(configs)[cfg := old(configs[cfg]) + [s]]
      ensures predictors == old(predictors)
      ensures trace == old(trace) + [Call.Configure(cfg, s)]
    {
      configs := configs[cfg := configs[cfg] + [s]];
      trace := trace + [Call.Configure(cfg, s)];
    }

    /**
     * `PD_PredictorCreate`: consumes the configuration handle (it is no longer
     * live and must not be destroyed separately) and issues a fresh predictor
     * handle built from the setters applied to it.
     */
    method PredictorCreate(cfg: Handle) returns (p: Handle)
      requires Valid() && cfg in configs
      modifies this
      ensures Valid()
      ensures !old(Issued(p)) && Issued(p)
      ensures configs == old(configs) - {cfg}
      ensures predictors == old(predictors)[p := old(configs[cfg])]
      ensures trace == old(trace) + [Call.PredictorCreate(cfg, p)]
    {
      p := next;
      next := next + 1;
      predictors := predictors[p := configs[cfg]];
      configs := configs - {cfg};
      trace := trace + [Call.PredictorCreate(cfg, p)];
    }

    /** `PD_PredictorClone`: a fresh, independently owned handle for the same program. */
    method PredictorClone(p: Handle) returns (q: Handle)
      requires Valid() && p in predictors
      modifies this
      ensures Valid()
      ensures !old(Issued(q)) && Issued(q)
      ensures configs == old(configs)
      ensures predictors == old(predictors)[q := old(predictors[p])]
      ensures trace == old(trace) + [Call.PredictorClone(p, q)]
    {
      q := next;
      next := next + 1;
      predictors := predictors[q := predictors[p]];
      trace := trace + [Call.PredictorClone(p, q)];
    }

    /** `PD_PredictorRun`; `answer` is the engine's success flag, which this layer does not compute. */
    method PredictorRun(p: Handle, answer: PdBool) returns (r: PdBool)
      requires Valid() && p in predictors
      modifies this
      ensures Valid() && next == old(next)
      ensures r == answer
      ensures configs == old(configs) && predictors == old(predictors)
      ensures trace == old(trace) + [Call.PredictorRun(p)]
    {
      r := answer;
      trace := trace + [Call.PredictorRun(p)];
    }

    /** `PD_PredictorGetInputHandle` or `PD_PredictorGetOutputHandle`: the slot named `name`. */
    method GetTensorHandle(p: Handle, side: Side, name: string) returns (t: TensorSlot)
      requires Valid() && p in predictors
      modifies this
      ensures Valid() && next == old(next)
      ensures t == TensorSlot(p, side, name)
      ensures configs == old(configs) && predictors == old(predictors)
      ensures trace == old(trace) + [if side == InputSide then Call.PredictorGetInputHandle(p, name)
                                     else Call.PredictorGetOutputHandle(p, name)]
    {
      t := TensorSlot(p, side, name);
      var call := if side == InputSide then Call.PredictorGetInputHandle(p, name)
                  else Call.PredictorGetOutputHandle(p, name);
      trace := trace + [call];
    }

    /** `PD_PredictorDestroy`: releases a live predictor handle. */
    method PredictorDestroy(p: Handle)
      requires Valid() && p in predictors
      modifies this
      ensures Valid() && next == old(next)
      ensures configs == old(configs)
      ensures predictors == old(predictors) - {p}
      ensures trace == old(trace) + [Call.PredictorDestroy(p)]
      ensures multiset(trace)[Call.PredictorDestroy(p)] == 1
    {
      assert Call.PredictorDestroy(p) !in trace;
      predictors := predictors - {p};
      trace := trace + [Call.PredictorDestroy(p)];
    }
  }

  /** Issues one setter on `cfg`, extending the calls applied so far by `s`. */
  method Issue(e: Engine, cfg: Handle, s: ConfigCall, ghost t0: seq<Call>,
               ghost c0: map<Handle, seq<ConfigCall>>, ghost done: seq<ConfigCall>)
    requires e.Valid() && e.Applied(t0, c0, cfg, done)
    modifies e
    ensures e.Valid() && e.next == old(e.next) && e.predictors == old(e.predictors)
    ensures e.Applied(t0, c0, cfg, done + [s])
  {
    e.Configure(cfg, s);
    OnAppend(cfg, done, [s]);
    assert c0[cfg] + done + [s] == c0[cfg] + (done + [s]);
  }
}
