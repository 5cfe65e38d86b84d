/** Memory sizing and admission of src/residency_policy.rs, with the saturating and
    truncating integer arithmetic of the source written out. */
module ResidencyPolicy {
  import opened Wrappers

  const U32_MAX: nat := 0xffff_ffff
  const U64_MAX: nat := 0xffff_ffff_ffff_ffff

  type U32 = n: nat | n <= U32_MAX
  type U64 = n: nat | n <= U64_MAX

  function Cap(n: nat): (r: U64)
    ensures r <= n && (n <= U64_MAX ==> r == n)
  {
    if n <= U64_MAX then n else U64_MAX
  }

  function SatAdd(a: U64, b: U64): U64 { Cap(a + b) }

  function SatMul(a: U64, b: U64): U64 { Cap(a * b) }

  function SatSub(a: U64, b: U64): U64 { if a >= b then a - b else 0 }

  function Max(a: U64, b: U64): U64 { if a >= b then a else b }

  function Min(a: U64, b: U64): U64 { if a <= b then a else b }

  lemma {:induction false} MulLe(a: nat, b: nat, k: nat)
    requires a <= b
    ensures a * k <= b * k
  {}

  lemma {:induction false} LessCancel(a: nat, b: nat, k: nat)
    requires a * k < b * k
    ensures a < b
  {
    if b <= a {
      MulLe(b, a, k);
    }
  }

  /** Rounded-down division, by what characterises it. */
  function Quotient(x: nat, d: nat): (q: nat)
    requires d > 0
    ensures q * d <= x < q * d + d
  {
    var q := x / d;
    assert x == d * q + x % d;
    q
  }

  lemma {:induction false} QuotientSmall(x: nat, d: nat)
    requires d > 0
    ensures Quotient(x, d) <= x
  {
    MulLe(1, d, Quotient(x, d));
  }

  const MIB: U64 := 1024 * 1024

  function CeilMib(bytes: U64): (r: U64)
    ensures r * MIB >= bytes && (r > 0 ==> (r - 1) * MIB < bytes)
  {
    if bytes % MIB == 0 then bytes / MIB else bytes / MIB + 1
  }

  // ── Resident weights under GPU offload ────────────────────────────────────

  datatype GpuBackend = Metal | Cuda | Vulkan | Cpu

  const MIN_ESTIMATE_MB: U64 := 256
  const GPU_HOST_OVERHEAD_MB: U64 := 384

  /** The layer-count proxy: the division is cut down to 32 bits before it is
      clamped to 12..80. */
  function Layers(fileMb: U64): (l: U64)
    ensures 12 <= l <= 80
  {
    var proxy := fileMb / 100 % (U32_MAX + 1);
    if proxy < 12 then 12 else if proxy > 80 then 80 else proxy
  }

  function Resident(fileMb: U64, backend: GpuBackend, gpuLayers: Option<U32>): U64 {
    if backend == Cpu then Max(fileMb, MIN_ESTIMATE_MB)
    else
      var layers := Layers(fileMb);
      var offloaded: U64 := match gpuLayers case None => layers case Some(n) => Min(n, layers);
      if offloaded == 0 then Max(fileMb, MIN_ESTIMATE_MB)
      else
        var weights := SatMul(fileMb, SatSub(layers, offloaded));
        QuotientSmall(weights, layers);
        var kept: U64 := Quotient(weights, layers);
        Max(SatAdd(kept, GPU_HOST_OVERHEAD_MB), MIN_ESTIMATE_MB)
  }

  /** How many layers go to the GPU. */
  function Offloaded(fileMb: U64, gpuLayers: Option<U32>): (n: nat)
    ensures n <= Layers(fileMb)
  {
    if gpuLayers.None? || gpuLayers.value > Layers(fileMb) then Layers(fileMb) else gpuLayers.value
  }

  /** The layer proxy of a file this size is not cut down. */
  predicate ProxyFits(fileMb: U64) {
    fileMb / 100 <= U32_MAX
  }

  /** No product or sum of the estimate is cut off at 64 bits. */
  predicate Unsaturated(fileMb: U64) {
    fileMb * 80 <= U64_MAX - GPU_HOST_OVERHEAD_MB
  }

  lemma {:induction false} ProxyIsUnsaturated(fileMb: U64)
    requires ProxyFits(fileMb)
    ensures Unsaturated(fileMb)
  {}

  // ── Products ──────────────────────────────────────────────────────────────

  lemma {:induction false} Associate(x: nat, y: nat, z: nat)
    ensures (x * y) * z == x * (y * z)
  {}

  lemma {:induction false} MulLeRight(k: nat, a: nat, b: nat)
    requires a <= b
    ensures k * a <= k * b
  {}

  lemma {:induction false} StrictMul(a: nat, b: nat, k: nat)
    requires a < b && k > 0
    ensures a * k < b * k
  {
    MulLe(a + 1, b, k);
  }

  lemma {:induction false} Regroup(p: nat, q: nat, l: nat, m: nat)
    ensures (p * l) * m == p * (l * m)
    ensures (q * m + m) * l == (q + 1) * (l * m)
  {}

  lemma {:induction false} Distribute(x: nat, n: nat, y: nat)
    requires n <= x
    ensures (x - n) * y == x * y - n * y
  {}

  lemma {:induction false} Commute(x: nat, y: nat)
    ensures x * y == y * x
  {}

  lemma {:induction false} CrossLess(a: nat, x: nat, y: nat, b: nat, l: nat, m: nat)
    requires a <= x && y < b && x * m <= y * l && l > 0
    ensures a * m < b * l
  {
    MulLe(a, x, m);
    StrictMul(y, b, l);
  }

  /** `x/l` rounds down no further than `y/m` when `x*m <= y*l`. */
  lemma {:induction false} QuotientGrows(x: nat, l: nat, y: nat, m: nat)
    requires l > 0 && m > 0 && x * m <= y * l
    ensures Quotient(x, l) <= Quotient(y, m)
  {
    var p, q := Quotient(x, l), Quotient(y, m);
    CrossLess(p * l, x, y, q * m + m, l, m);
    Regroup(p, q, l, m);
    LessCancel(p, q + 1, l * m);
  }

  /** Of fewer layers a smaller share stays behind. */
  lemma {:induction false} SmallerShare(la: nat, lb: nat, n: nat)
    requires n <= la <= lb
    ensures (la - n) * lb <= (lb - n) * la
  {
    Distribute(la, n, lb);
    Distribute(lb, n, la);
    Commute(la, lb);
    MulLeRight(n, la, lb);
  }

  // ── The estimate in closed form ───────────────────────────────────────────

  /** The share of the weights kept in host memory when `n` of the layers go. */
  function Kept(fileMb: nat, layers: nat, n: nat): nat
    requires n <= layers && layers > 0
  {
    Quotient(fileMb * (layers - n), layers)
  }

  /** More weights in more layers, with as many layers offloaded: never less kept. */
  lemma {:induction false} KeptGrows(a: nat, b: nat, la: nat, lb: nat, n: nat)
    requires a <= b && 0 < la <= lb && n <= la
    ensures Kept(a, la, n) <= Kept(b, lb, n)
  {
    var u, v := la - n, lb - n;
    SmallerShare(la, lb, n);
    Associate(a, u, lb);
    MulLeRight(a, u * lb, v * la);
    MulLe(a, b, v * la);
    Associate(b, v, la);
    QuotientGrows(a * u, la, b * v, lb);
  }

  /** More layers offloaded: never more kept. */
  lemma {:induction false} KeptShrinks(fileMb: nat, layers: nat, few: nat, more: nat)
    requires few <= more <= layers && layers > 0
    ensures Kept(fileMb, layers, more) <= Kept(fileMb, layers, few)
  {
    MulLeRight(fileMb, layers - more, layers - few);
    MulLe(fileMb * (layers - more), fileMb * (layers - few), layers);
    QuotientGrows(fileMb * (layers - more), layers, fileMb * (layers - few), layers);
  }

  lemma {:induction false} QuotientAtLeast(x: nat, d: nat, k: nat)
    requires d > 0
    ensures Quotient(x, d) >= k <==> x >= k * d
  {
    var q := Quotient(x, d);
    if q >= k {
      MulLe(k, q, d);
    } else {
      MulLe(q + 1, k, d);
      Successor(q, d);
    }
  }

  lemma {:induction false} Successor(q: nat, d: nat)
    ensures (q + 1) * d == q * d + d
  {}

  /** A product and a sum that stay within 64 bits are exact. */
  lemma {:induction false} Exact(x: U64, y: U64, d: nat, limit: nat)
    requires x * y <= limit <= U64_MAX - GPU_HOST_OVERHEAD_MB && d > 0
    ensures SatMul(x, y) == x * y
    ensures Quotient(x * y, d) <= limit
    ensures SatAdd(Quotient(x * y, d), GPU_HOST_OVERHEAD_MB) == Quotient(x * y, d) + GPU_HOST_OVERHEAD_MB
  {
    QuotientSmall(x * y, d);
  }

  /** Without saturation the estimate is the kept share plus the fixed overhead. */
  lemma {:induction false} ResidentOffloaded(fileMb: U64, backend: GpuBackend, gpuLayers: Option<U32>)
    requires backend != Cpu && Unsaturated(fileMb) && gpuLayers != Some(0)
    ensures Resident(fileMb, backend, gpuLayers)
            == Kept(fileMb, Layers(fileMb), Offloaded(fileMb, gpuLayers)) + GPU_HOST_OVERHEAD_MB
  {
    hide Cap, SatMul, SatAdd, Quotient, Layers;
    var layers, n := Layers(fileMb), Offloaded(fileMb, gpuLayers);
    MulLeRight(fileMb, layers - n, 80);
    Exact(fileMb, layers - n, layers, fileMb * 80);
  }

  /** Nothing offloaded: the whole file, or the floor. */
  lemma {:induction false} ResidentWhole(fileMb: U64, backend: GpuBackend)
    ensures Resident(fileMb, backend, Some(0)) == Max(fileMb, MIN_ESTIMATE_MB)
    ensures forall gpuLayers :: Resident(fileMb, Cpu, gpuLayers) == Max(fileMb, MIN_ESTIMATE_MB)
  {}

  /** Everything offloaded: `None` and any count of at least all layers agree. */
  lemma {:induction false} AllOffloaded(fileMb: U64, backend: GpuBackend, gpuLayers: Option<U32>)
    requires backend != Cpu && (gpuLayers.None? || gpuLayers.value >= Layers(fileMb))
    ensures Resident(fileMb, backend, gpuLayers) == GPU_HOST_OVERHEAD_MB
  {
    NothingKept(Layers(fileMb));
    assert SatMul(fileMb, 0) == 0;
  }

  lemma {:induction false} NothingKept(layers: nat)
    requires layers > 0
    ensures Quotient(0, layers) == 0
  {}

  // ── Larger files ──────────────────────────────────────────────────────────

  /** A larger file with no fewer layers by the proxy is estimated no smaller. */
  lemma {:induction false} GrowsWithLayers(a: U64, b: U64, backend: GpuBackend, gpuLayers: Option<U32>)
    requires a <= b && Unsaturated(b) && Layers(a) <= Layers(b)
    ensures Resident(a, backend, gpuLayers) <= Resident(b, backend, gpuLayers)
  {
    hide Resident, Layers, Kept;
    ResidentWhole(a, backend);
    ResidentWhole(b, backend);
    if backend != Cpu && gpuLayers != Some(0) {
      SmallerIsUnsaturated(a, b);
      ResidentOffloaded(a, backend, gpuLayers);
      ResidentOffloaded(b, backend, gpuLayers);
      KeptOfBoth(a, b, gpuLayers);
    }
  }

  lemma {:induction false} SmallerIsUnsaturated(a: U64, b: U64)
    requires a <= b && Unsaturated(b)
    ensures Unsaturated(a)
  {}

  lemma {:induction false} KeptOfBoth(a: U64, b: U64, gpuLayers: Option<U32>)
    requires a <= b && Layers(a) <= Layers(b)
    ensures Kept(a, Layers(a), Offloaded(a, gpuLayers)) <= Kept(b, Layers(b), Offloaded(b, gpuLayers))
  {
    if gpuLayers.Some? && gpuLayers.value <= Layers(a) {
      KeptGrows(a, b, Layers(a), Layers(b), gpuLayers.value);
    } else {
      AllKeptIsNone(a, Layers(a));
    }
  }

  lemma {:induction false} AllKeptIsNone(fileMb: nat, layers: nat)
    requires layers > 0
    ensures Kept(fileMb, layers, layers) == 0
  {
    NothingKept(layers);
  }

  /** A larger file with fewer layers by the proxy is estimated smaller for some setting:
      that which offloads all its layers but not all of the smaller file's. */
  lemma {:induction false} ShrinksWithoutLayers(a: U64, b: U64, backend: GpuBackend)
    requires a <= b && Unsaturated(b) && Layers(a) > Layers(b) && backend != Cpu
    ensures Resident(a, backend, Some(Layers(b))) > Resident(b, backend, Some(Layers(b)))
  {
    ManyLayersWeigh(a);
    hide Resident, Layers, Quotient;
    var n := Layers(b);
    SmallerIsUnsaturated(a, b);
    AllOffloaded(b, backend, Some(n));
    ResidentOffloaded(a, backend, Some(n));
    MulLeRight(a, 1, Layers(a) - n);
    QuotientAtLeast(a * (Layers(a) - n), Layers(a), 1);
  }

  lemma {:induction false} ManyLayersWeigh(fileMb: U64)
    ensures Layers(fileMb) > 12 ==> fileMb >= Layers(fileMb)
  {}

  ghost predicate NeverSmaller(a: U64, b: U64) {
    forall backend, gpuLayers :: Resident(a, backend, gpuLayers) <= Resident(b, backend, gpuLayers)
  }

  /** A larger file is estimated no smaller on every backend and for every setting,
      exactly when it has no fewer layers by the proxy. */
  lemma {:induction false} MonotoneExactly(a: U64, b: U64)
    requires a <= b && Unsaturated(b)
    ensures NeverSmaller(a, b) <==> Layers(a) <= Layers(b)
  {
    if Layers(a) <= Layers(b) {
      forall backend, gpuLayers
        ensures Resident(a, backend, gpuLayers) <= Resident(b, backend, gpuLayers)
      {
        GrowsWithLayers(a, b, backend, gpuLayers);
      }
    } else {
      ShrinksWithoutLayers(a, b, Metal);
    }
  }

  /** Within the range of the proxy a larger file never has fewer layers. */
  lemma {:induction false} LayersMonotone(a: U64, b: U64)
    requires a <= b && ProxyFits(b)
    ensures Layers(a) <= Layers(b)
  {}

  /** So there the estimate grows with the file, for every backend and every setting of
      the offloaded layers, across the moving proxy and both ends of its clamp. */
  lemma {:induction false} MonotoneInFileSize(a: U64, b: U64, backend: GpuBackend, gpuLayers: Option<U32>)
    requires a <= b && ProxyFits(b)
    ensures Resident(a, backend, gpuLayers) <= Resident(b, backend, gpuLayers)
  {
    ProxyIsUnsaturated(b);
    LayersMonotone(a, b);
    GrowsWithLayers(a, b, backend, gpuLayers);
  }

  /** Beyond it the cast to 32 bits wraps: one MiB more, and the file has the fewest
      layers and is estimated as resident in next to no memory. */
  lemma {:induction false} NotMonotoneBeyondProxy()
    ensures var a: U64, b: U64 := 429_496_729_599, 429_496_729_600;
            && ProxyFits(a) && !ProxyFits(b) && Layers(a) == 80 && Layers(b) == 12
            && !NeverSmaller(a, b)
            && Resident(a, Cuda, Some(12)) > Resident(b, Cuda, Some(12)) == GPU_HOST_OVERHEAD_MB
  {
    var a: U64, b: U64 := 429_496_729_599, 429_496_729_600;
    assert Layers(a) == 80 && Layers(b) == 12;
    hide Resident, Layers;
    MonotoneExactly(a, b);
    ShrinksWithoutLayers(a, b, Cuda);
    AllOffloaded(b, Cuda, Some(12));
  }

  // ── More layers ───────────────────────────────────────────────────────────

  /** What offloading `n` layers saves of the file is what they weigh, rounded up. */
  lemma {:induction false} SavingCovers(fileMb: nat, layers: nat, n: nat)
    requires 0 < n <= layers
    ensures Kept(fileMb, layers, n) + GPU_HOST_OVERHEAD_MB > fileMb <==> fileMb * n <= (GPU_HOST_OVERHEAD_MB - 1) * layers
  {
    var saved := GPU_HOST_OVERHEAD_MB - 1;
    Commute(fileMb, layers - n);
    Distribute(layers, n, fileMb);
    Commute(layers, fileMb);
    Commute(n, fileMb);
    if fileMb >= saved {
      QuotientAtLeast(fileMb * (layers - n), layers, fileMb - saved);
      Distribute(fileMb, saved, layers);
    } else {
      MulLe(fileMb, saved, n);
      MulLeRight(saved, n, layers);
    }
  }

  /** Up to the floor of the estimate the overhead is never covered. */
  lemma {:induction false} FloorNeverCovers(fileMb: nat, layers: nat, n: nat)
    requires 0 < n <= layers && fileMb <= MIN_ESTIMATE_MB
    ensures fileMb * n <= (GPU_HOST_OVERHEAD_MB - 1) * layers
  {
    MulLe(fileMb, GPU_HOST_OVERHEAD_MB - 1, n);
    MulLeRight(GPU_HOST_OVERHEAD_MB - 1, n, layers);
  }

  /** Offloading some layers costs more host memory than offloading none exactly when
      the layers that go weigh, rounded up to whole MiB, less than the fixed overhead. */
  lemma {:induction false} OffloadingCostsMore(fileMb: U64, backend: GpuBackend, gpuLayers: Option<U32>)
    requires backend != Cpu && Unsaturated(fileMb) && gpuLayers != Some(0)
    ensures Resident(fileMb, backend, gpuLayers) > Resident(fileMb, backend, Some(0))
            <==> fileMb * Offloaded(fileMb, gpuLayers) <= (GPU_HOST_OVERHEAD_MB - 1) * Layers(fileMb)
  {
    var layers, n := Layers(fileMb), Offloaded(fileMb, gpuLayers);
    ResidentOffloaded(fileMb, backend, gpuLayers);
    ResidentWhole(fileMb, backend);
    SavingCovers(fileMb, layers, n);
    hide Resident, Kept, Layers;
    if fileMb <= MIN_ESTIMATE_MB {
      FloorNeverCovers(fileMb, layers, n);
    }
  }

  /** For a single layer that is every file of at most 30 640 MiB. */
  lemma {:induction false} FirstLayerCostsMore(fileMb: U64, backend: GpuBackend)
    requires backend != Cpu && ProxyFits(fileMb)
    ensures Resident(fileMb, backend, Some(1)) > Resident(fileMb, backend, Some(0)) <==> fileMb <= 30_640
  {
    ProxyIsUnsaturated(fileMb);
    LightLayers(fileMb);
    hide Resident, Layers;
    OffloadingCostsMore(fileMb, backend, Some(1));
    assert Offloaded(fileMb, Some(1)) == 1;
  }

  lemma {:induction false} LightLayers(fileMb: U64)
    requires ProxyFits(fileMb)
    ensures fileMb <= (GPU_HOST_OVERHEAD_MB - 1) * Layers(fileMb) <==> fileMb <= 30_640
  {
    var proxy := fileMb / 100;
    assert proxy % (U32_MAX + 1) == proxy;
  }

  lemma {:induction false} FirstLayerCostsOverhead()
    ensures Resident(200, Metal, Some(0)) == 256 && Resident(200, Metal, Some(1)) == 567
  {
    assert Layers(200) == 12;
  }

  /** From one layer up to all, offloading more never raises the estimate. */
  lemma {:induction false} AntitoneInLayers(fileMb: U64, backend: GpuBackend, few: U32, more: Option<U32>)
    requires Unsaturated(fileMb) && 1 <= few && (more.Some? ==> few <= more.value)
    ensures Resident(fileMb, backend, more) <= Resident(fileMb, backend, Some(few))
  {
    hide Resident, Layers, Kept;
    ResidentWhole(fileMb, backend);
    if backend != Cpu {
      ResidentOffloaded(fileMb, backend, Some(few));
      ResidentOffloaded(fileMb, backend, more);
      KeptShrinks(fileMb, Layers(fileMb), Offloaded(fileMb, Some(few)), Offloaded(fileMb, more));
    }
  }

  /** Offloading more never raises the estimate, exactly: it can only do so from no layer
      at all, on a GPU, for layers that weigh, rounded up, less than the overhead. */
  lemma {:induction false} AntitoneExactly(fileMb: U64, backend: GpuBackend, few: U32, more: Option<U32>)
    requires Unsaturated(fileMb) && (more.Some? ==> few <= more.value)
    ensures Resident(fileMb, backend, more) > Resident(fileMb, backend, Some(few))
            <==> backend != Cpu && few == 0 && more != Some(0)
                 && fileMb * Offloaded(fileMb, more) <= (GPU_HOST_OVERHEAD_MB - 1) * Layers(fileMb)
  {
    hide Resident, Layers;
    ResidentWhole(fileMb, backend);
    if few >= 1 {
      AntitoneInLayers(fileMb, backend, few, more);
    } else if backend != Cpu && more != Some(0) {
      OffloadingCostsMore(fileMb, backend, more);
    }
  }

  // ── Admission ─────────────────────────────────────────────────────────────

  /** A model file: its size, its trained context, and the bytes it needs at each
      context. The last is any function that never decreases with the context. */
  datatype ModelInfo = ModelInfo(fileBytes: U64, trainContext: Option<U32>, memoryNeeded: U32 -> U64)

  ghost predicate GrowsWithContext(info: ModelInfo) {
    forall a: U32, b: U32 :: a <= b ==> info.memoryNeeded(a) <= info.memoryNeeded(b)
  }

  datatype Plan = Plan(weightsMb: U64, contextMb: U64, workingMb: U64, totalMb: U64, contextTokens: U32,
                       sessions: nat, reduced: bool, budgetMb: U64)

  function Sessions(concurrent: nat): nat {
    if concurrent == 0 then 1 else concurrent
  }

  /** A product cut off at 64 bits; the session count of the source is a `usize`. */
  function SatTimes(a: U64, n: nat): U64 { Cap(a * n) }

  function Working(info: ModelInfo, vision: bool): U64 {
    SatAdd(Max(CeilMib(SatSub(info.memoryNeeded(0), info.fileBytes)), 500), if vision then 1024 else 0)
  }

  function ContextMb(info: ModelInfo, context: U32, concurrent: nat): U64 {
    CeilMib(SatTimes(SatSub(info.memoryNeeded(context), info.memoryNeeded(0)), Sessions(concurrent)))
  }

  function Estimate(info: ModelInfo, weightsMb: U64, context: U32, concurrent: nat, vision: bool): Plan {
    Plan(weightsMb, ContextMb(info, context, concurrent), Working(info, vision),
         SatAdd(SatAdd(weightsMb, ContextMb(info, context, concurrent)), Working(info, vision)),
         context, Sessions(concurrent), false, 0)
  }

  function InitialContext(info: ModelInfo, requested: Option<U32>): U32 {
    match requested
    case Some(c) => c
    case None => if info.trainContext.Some? && info.trainContext.value < 4096 then info.trainContext.value else 4096
  }

  /** The windows automatic sizing tries are the initial one, its halves, and at
      the end one of at most 2048 tokens. */
  function SmallestWindow(info: ModelInfo): U32 {
    if InitialContext(info, None) < 2048 then InitialContext(info, None) else 2048
  }

  function Total(info: ModelInfo, weightsMb: U64, context: U32, concurrent: nat, vision: bool): U64 {
    Estimate(info, weightsMb, context, concurrent, vision).totalMb
  }

  lemma {:induction false} CeilMonotone(a: U64, b: U64)
    requires a <= b
    ensures CeilMib(a) <= CeilMib(b)
  {}

  lemma {:induction false} TimesMonotone(a: U64, b: U64, n: nat)
    requires a <= b
    ensures SatTimes(a, n) <= SatTimes(b, n)
  {
    MulLe(a, b, n);
  }

  lemma {:induction false} SumMonotone(weightsMb: U64, a: U64, b: U64, working: U64)
    requires a <= b
    ensures SatAdd(SatAdd(weightsMb, a), working) <= SatAdd(SatAdd(weightsMb, b), working)
  {}

  /** A larger window never needs less. */
  lemma {:induction false} TotalGrows(info: ModelInfo, weightsMb: U64, a: U32, b: U32, concurrent: nat, vision: bool)
    requires GrowsWithContext(info) && a <= b
    ensures Total(info, weightsMb, a, concurrent, vision) <= Total(info, weightsMb, b, concurrent, vision)
  {
    ContextGrows(info, a, b, concurrent);
    hide ContextMb, Working, SatAdd;
    SumMonotone(weightsMb, ContextMb(info, a, concurrent), ContextMb(info, b, concurrent), Working(info, vision));
  }

  lemma {:induction false} ContextGrows(info: ModelInfo, a: U32, b: U32, concurrent: nat)
    requires GrowsWithContext(info) && a <= b
    ensures ContextMb(info, a, concurrent) <= ContextMb(info, b, concurrent)
  {
    hide CeilMib, SatTimes;
    assert info.memoryNeeded(a) <= info.memoryNeeded(b);
    var x, y := SatSub(info.memoryNeeded(a), info.memoryNeeded(0)), SatSub(info.memoryNeeded(b), info.memoryNeeded(0));
    TimesMonotone(x, y, Sessions(concurrent));
    CeilMonotone(SatTimes(x, Sessions(concurrent)), SatTimes(y, Sessions(concurrent)));
  }

  // ── In bytes ──────────────────────────────────────────────────────────────

  /** The bytes the context of all sessions takes beyond what the model takes at none; a
      count of zero is one session. */
  function ContextBytes(info: ModelInfo, context: U32, concurrent: nat): nat {
    var grown: int := info.memoryNeeded(context) - info.memoryNeeded(0);
    if grown < 0 then 0 else grown * (if concurrent > 1 then concurrent else 1)
  }

  /** The bytes a model takes beyond its file, and never less than 500 MiB. */
  function WorkingBytes(info: ModelInfo): nat {
    var beyond: int := info.memoryNeeded(0) - info.fileBytes;
    if beyond < 524_288_000 then 524_288_000 else beyond
  }

  /** All that a model needs, with another GiB for vision. */
  function NeededBytes(info: ModelInfo, weightsMb: U64, context: U32, concurrent: nat, vision: bool): nat {
    weightsMb * 1_048_576 + WorkingBytes(info) + (if vision then 1_073_741_824 else 0) + ContextBytes(info, context, concurrent)
  }

  lemma {:induction false} CeilInBytes(bytes: U64)
    ensures bytes <= CeilMib(bytes) * 1_048_576 < bytes + 1_048_576
  {
    assert MIB == 1_048_576;
  }

  lemma {:induction false} ContextIsProduct(info: ModelInfo, context: U32, concurrent: nat)
    ensures ContextBytes(info, context, concurrent)
            == SatSub(info.memoryNeeded(context), info.memoryNeeded(0)) * Sessions(concurrent)
  {}

  /** Short of 64 bits the context is covered, and by less than a MiB too much. */
  lemma {:induction false} ContextInBytes(info: ModelInfo, context: U32, concurrent: nat)
    ensures ContextMb(info, context, concurrent) * 1_048_576 < ContextBytes(info, context, concurrent) + 1_048_576
    ensures ContextBytes(info, context, concurrent) <= U64_MAX ==>
              ContextBytes(info, context, concurrent) <= ContextMb(info, context, concurrent) * 1_048_576
  {
    hide CeilMib, ContextBytes;
    var grown := SatSub(info.memoryNeeded(context), info.memoryNeeded(0));
    ContextIsProduct(info, context, concurrent);
    CeilInBytes(SatTimes(grown, Sessions(concurrent)));
  }

  lemma {:induction false} WorkingInBytes(info: ModelInfo, vision: bool)
    ensures var needed := WorkingBytes(info) + (if vision then 1_073_741_824 else 0);
            needed <= Working(info, vision) * 1_048_576 < needed + 1_048_576
  {
    hide CeilMib;
    CeilInBytes(SatSub(info.memoryNeeded(0), info.fileBytes));
  }

  /** So the sum of the parts covers what is needed, and by less than two MiB too much. */
  lemma {:induction false} PartsInBytes(info: ModelInfo, weightsMb: U64, context: U32, concurrent: nat, vision: bool)
    ensures var sum := weightsMb + ContextMb(info, context, concurrent) + Working(info, vision);
            && sum * 1_048_576 < NeededBytes(info, weightsMb, context, concurrent, vision) + 2_097_152
            && (ContextBytes(info, context, concurrent) <= U64_MAX ==>
                  NeededBytes(info, weightsMb, context, concurrent, vision) <= sum * 1_048_576)
  {
    hide ContextMb, Working, ContextBytes, WorkingBytes;
    ContextInBytes(info, context, concurrent);
    WorkingInBytes(info, vision);
  }

  lemma {:induction false} TotalIsCapped(info: ModelInfo, weightsMb: U64, context: U32, concurrent: nat, vision: bool)
    ensures Total(info, weightsMb, context, concurrent, vision)
            == Cap(weightsMb + ContextMb(info, context, concurrent) + Working(info, vision))
  {
    hide ContextMb, Working;
  }

  /** A budget that covers the total covers every byte that is needed, and one that does
      not cover it is less than two MiB above that. Only a context of more than 64 bits
      of bytes, or a budget of as many MiB, can deceive. */
  lemma {:induction false} TotalInBytes(info: ModelInfo, weightsMb: U64, context: U32, concurrent: nat, vision: bool, budgetMb: U64)
    ensures Total(info, weightsMb, context, concurrent, vision) <= budgetMb < U64_MAX
            && ContextBytes(info, context, concurrent) <= U64_MAX ==>
              NeededBytes(info, weightsMb, context, concurrent, vision) <= budgetMb * 1_048_576
    ensures Total(info, weightsMb, context, concurrent, vision) > budgetMb ==>
              budgetMb * 1_048_576 < NeededBytes(info, weightsMb, context, concurrent, vision) + 2_097_152
  {
    hide Total, ContextMb, Working, NeededBytes, ContextBytes;
    TotalIsCapped(info, weightsMb, context, concurrent, vision);
    PartsInBytes(info, weightsMb, context, concurrent, vision);
  }

  /** The windows automatic sizing begins and ends with. */
  lemma {:induction false} Windows(info: ModelInfo)
    ensures InitialContext(info, None) <= 4096
    ensures InitialContext(info, None) < 4096 ==> info.trainContext == Some(InitialContext(info, None))
    ensures info.trainContext.Some? ==> InitialContext(info, None) <= info.trainContext.value
    ensures SmallestWindow(info) <= 2048
    ensures SmallestWindow(info) < 2048 ==> info.trainContext == Some(SmallestWindow(info))
    ensures forall c: U32 :: InitialContext(info, Some(c)) == c
  {}

  /** `candidate`: an explicit context is taken as it is; an automatic one is halved
      until the plan fits or the window is at most 2048. As it begins with no more than
      4096, that is the initial window if it fits, and else the smallest. */
  method Candidate(info: ModelInfo, weightsMb: U64, requested: Option<U32>, concurrent: nat, budgetMb: U64, vision: bool)
    returns (plan: Plan)
    requires GrowsWithContext(info)
    ensures plan == Estimate(info, weightsMb, plan.contextTokens, concurrent, vision)
                      .(reduced := plan.contextTokens < InitialContext(info, requested), budgetMb := budgetMb)
    ensures requested.Some? ==> plan.contextTokens == requested.value
    ensures requested.None? ==> SmallestWindow(info) <= plan.contextTokens <= InitialContext(info, None)
    ensures requested.None? ==>
              plan.contextTokens
              == var initial := InitialContext(info, None);
                 if Total(info, weightsMb, initial, concurrent, vision) <= budgetMb then initial else SmallestWindow(info)
    ensures requested.None? && plan.totalMb > budgetMb ==> plan.contextTokens == SmallestWindow(info)
    ensures requested.None? && plan.contextTokens < InitialContext(info, None) ==>
              Total(info, weightsMb, InitialContext(info, None), concurrent, vision) > budgetMb
    ensures requested.None? ==>
              (plan.totalMb <= budgetMb <==> Total(info, weightsMb, SmallestWindow(info), concurrent, vision) <= budgetMb)
  {
    hide CeilMib, ContextMb, Working, SatAdd, SatSub, SatTimes, Cap, Sessions, GrowsWithContext;
    var initial := InitialContext(info, requested);
    var context := initial;
    while true
      invariant context == initial || (requested.None? && context == SmallestWindow(info) < initial)
      invariant context < initial ==> Total(info, weightsMb, initial, concurrent, vision) > budgetMb
      decreases context
    {
      plan := Estimate(info, weightsMb, context, concurrent, vision);
      plan := plan.(reduced := context < initial, budgetMb := budgetMb);
      if plan.totalMb <= budgetMb || requested.Some? || context <= 2048 {
        if requested.None? {
          TotalGrows(info, weightsMb, SmallestWindow(info), context, concurrent, vision);
        }
        return plan;
      }
      TotalGrows(info, weightsMb, context, initial, concurrent, vision);
      var half := context / 2;
      context := if half < 2048 then 2048 else half;
    }
  }

  datatype Denial = Denied(plan: Plan)

  lemma {:induction false} EstimateAt(info: ModelInfo, weightsMb: U64, concurrent: nat, vision: bool)
    ensures forall context: U32 :: Estimate(info, weightsMb, context, concurrent, vision).contextTokens == context
  {}

  /** `select`: a plan over the budget is refused. An automatic request is refused
      only when, and always when, not even the smallest window fits. In bytes: an
      accepted plan has room for all its sessions, and a refused one would have had less
      than two MiB to spare. */
  method Select(info: ModelInfo, weightsMb: U64, requested: Option<U32>, concurrent: nat, budgetMb: U64, vision: bool)
    returns (r: Result<Plan, Denial>)
    requires GrowsWithContext(info)
    ensures r.Ok? ==>
              && r.value.totalMb <= budgetMb
              && r.value == Estimate(info, weightsMb, r.value.contextTokens, concurrent, vision)
                              .(reduced := r.value.contextTokens < InitialContext(info, requested), budgetMb := budgetMb)
    ensures r.Ok? ==> (r.value.reduced <==> r.value.contextTokens < InitialContext(info, requested)) && r.value.budgetMb == budgetMb
    ensures requested.Some? ==>
              && (r.Ok? <==> Total(info, weightsMb, requested.value, concurrent, vision) <= budgetMb)
              && (r.Ok? ==> r.value.contextTokens == requested.value)
    ensures requested.None? ==>
              && (r.Ok? <==> Total(info, weightsMb, SmallestWindow(info), concurrent, vision) <= budgetMb)
              && (r.Ok? ==> SmallestWindow(info) <= r.value.contextTokens <= InitialContext(info, None))
    ensures r.Ok? && budgetMb < U64_MAX && ContextBytes(info, r.value.contextTokens, concurrent) <= U64_MAX ==>
              NeededBytes(info, weightsMb, r.value.contextTokens, concurrent, vision) <= budgetMb * 1_048_576
    ensures r.Err? ==>
              budgetMb * 1_048_576 < NeededBytes(info, weightsMb, LeastWindow(info, requested), concurrent, vision) + 2_097_152
  {
    hide Estimate, ContextBytes, NeededBytes;
    EstimateAt(info, weightsMb, concurrent, vision);
    var plan := Candidate(info, weightsMb, requested, concurrent, budgetMb, vision);
    TotalInBytes(info, weightsMb, plan.contextTokens, concurrent, vision, budgetMb);
    TotalInBytes(info, weightsMb, LeastWindow(info, requested), concurrent, vision, budgetMb);
    if plan.totalMb <= budgetMb {
      return Ok(plan);
    }
    return Err(Denied(plan));
  }

  /** What an estimate's parts add up to. */
  predicate PartsAddUp(p: Plan) {
    p.totalMb == Cap(p.weightsMb + p.contextMb + p.workingMb)
  }

  lemma {:induction false} EstimateAddsUp(info: ModelInfo, weightsMb: U64, context: U32, concurrent: nat, vision: bool)
    ensures PartsAddUp(Estimate(info, weightsMb, context, concurrent, vision))
    ensures Estimate(info, weightsMb, context, concurrent, vision).workingMb >= 500
    ensures Estimate(info, weightsMb, context, concurrent, vision).totalMb >= 500
    ensures var p := Estimate(info, weightsMb, context, concurrent, vision);
            var sum := p.weightsMb + p.contextMb + p.workingMb;
            p.totalMb == sum <==> sum <= U64_MAX
  {}

  /** A speculative draft model: its file and its weights. It runs at the context asked
      for, or at 4096. */
  datatype Draft = Draft(info: ModelInfo, weightsMb: U64)

  function DraftContext(requested: Option<U32>): U32 {
    if requested.Some? then requested.value else 4096
  }

  /** The working memory of a draft is charged once per session. */
  function DraftPlan(draft: Draft, requested: Option<U32>, concurrent: nat): Plan {
    var p := Estimate(draft.info, draft.weightsMb, DraftContext(requested), concurrent, false);
    var working := SatTimes(p.workingMb, Sessions(concurrent));
    p.(workingMb := working, totalMb := SatAdd(SatAdd(p.weightsMb, p.contextMb), working))
  }

  function WithDraft(p: Plan, d: Plan): Plan {
    p.(weightsMb := SatAdd(p.weightsMb, d.weightsMb), contextMb := SatAdd(p.contextMb, d.contextMb),
       workingMb := SatAdd(p.workingMb, d.workingMb), totalMb := SatAdd(p.totalMb, d.totalMb))
  }

  lemma {:induction false} DraftAddsUp(draft: Draft, requested: Option<U32>, concurrent: nat)
    ensures PartsAddUp(DraftPlan(draft, requested, concurrent))
  {}

  /** What a draft needs: its weights once, a context and its working memory for every
      session. */
  function DraftBytes(draft: Draft, requested: Option<U32>, concurrent: nat): nat {
    draft.weightsMb * 1_048_576 + (if concurrent > 1 then concurrent else 1) * WorkingBytes(draft.info)
    + ContextBytes(draft.info, if requested.Some? then requested.value else 4096, concurrent)
  }

  lemma {:induction false} DraftInBytes(draft: Draft, requested: Option<U32>, concurrent: nat)
    requires DraftPlan(draft, requested, concurrent).totalMb < U64_MAX
    requires ContextBytes(draft.info, DraftContext(requested), concurrent) <= U64_MAX
    ensures DraftBytes(draft, requested, concurrent) <= DraftPlan(draft, requested, concurrent).totalMb * 1_048_576
  {
    hide ContextMb, Working, ContextBytes, WorkingBytes;
    var sessions: nat, working: nat := Sessions(concurrent), Working(draft.info, false);
    ContextInBytes(draft.info, DraftContext(requested), concurrent);
    WorkingInBytes(draft.info, false);
    MulLeRight(sessions, WorkingBytes(draft.info), working * 1_048_576);
    Associate(sessions, working, 1_048_576);
    Commute(sessions, working);
  }

  /** What a plan needs in all. */
  function AllBytes(info: ModelInfo, weightsMb: U64, context: U32, requested: Option<U32>, draft: Option<Draft>, concurrent: nat,
                    vision: bool): nat {
    NeededBytes(info, weightsMb, context, concurrent, vision)
    + (if draft.Some? then DraftBytes(draft.value, requested, concurrent) else 0)
  }

  /** No context takes more than 64 bits of bytes. */
  predicate ContextsFit(info: ModelInfo, context: U32, requested: Option<U32>, draft: Option<Draft>, concurrent: nat) {
    && ContextBytes(info, context, concurrent) <= U64_MAX
    && (draft.Some? ==> ContextBytes(draft.value.info, DraftContext(requested), concurrent) <= U64_MAX)
  }

  /** Adding a draft back to a plan that fits beside it stays within the budget. */
  lemma {:induction false} DraftFits(p: Plan, d: Plan, budgetMb: U64)
    requires PartsAddUp(p) && PartsAddUp(d) && p.totalMb >= 500 && p.totalMb <= SatSub(budgetMb, d.totalMb)
    ensures WithDraft(p, d).totalMb == p.totalMb + d.totalMb <= budgetMb
    ensures PartsAddUp(WithDraft(p, d)) || budgetMb == U64_MAX
    ensures WithDraft(p, d).totalMb < U64_MAX ==> PartsAddUp(WithDraft(p, d))
  {}

  /** The smallest window a request can end with, and what it needs there. */
  function LeastWindow(info: ModelInfo, requested: Option<U32>): U32 {
    if requested.Some? then requested.value else SmallestWindow(info)
  }

  function OwnTotal(info: ModelInfo, weightsMb: U64, requested: Option<U32>, concurrent: nat, vision: bool): U64 {
    Total(info, weightsMb, LeastWindow(info, requested), concurrent, vision)
  }

  function LeastTotal(info: ModelInfo, weightsMb: U64, requested: Option<U32>, draft: Option<Draft>,
                      concurrent: nat, vision: bool): nat {
    OwnTotal(info, weightsMb, requested, concurrent, vision)
    + (if draft.Some? then DraftPlan(draft.value, requested, concurrent).totalMb else 0)
  }

  /** Each part of a plan is the target's own at the window of the plan, with the
      draft's part on top. */
  predicate HasParts(p: Plan, info: ModelInfo, weightsMb: U64, requested: Option<U32>, draft: Option<Draft>, concurrent: nat,
                     vision: bool) {
    var own := Estimate(info, weightsMb, p.contextTokens, concurrent, vision);
    if draft.None? then p.weightsMb == weightsMb && p.contextMb == own.contextMb && p.workingMb == own.workingMb
    else
      var extra := DraftPlan(draft.value, requested, concurrent);
      && p.weightsMb == Cap(weightsMb + draft.value.weightsMb)
      && p.contextMb == Cap(own.contextMb + extra.contextMb)
      && p.workingMb == Cap(own.workingMb + extra.workingMb)
  }

  lemma {:induction false} DraftAddsParts(p: Plan, info: ModelInfo, weightsMb: U64, requested: Option<U32>, draft: Draft,
                                          concurrent: nat, budgetMb: U64, vision: bool)
    requires HasParts(p, info, weightsMb, requested, None, concurrent, vision)
    ensures HasParts(WithDraft(p, DraftPlan(draft, requested, concurrent)).(budgetMb := budgetMb), info, weightsMb, requested, Some(draft), concurrent, vision)
  {
    hide Estimate, DraftPlan;
    DraftPlanWeights(draft, requested, concurrent);
  }

  lemma {:induction false} DraftPlanWeights(draft: Draft, requested: Option<U32>, concurrent: nat)
    ensures DraftPlan(draft, requested, concurrent).weightsMb == draft.weightsMb
  {}

  lemma {:induction false} OwnTotalAtLeast(info: ModelInfo, weightsMb: U64, requested: Option<U32>, concurrent: nat, vision: bool)
    ensures OwnTotal(info, weightsMb, requested, concurrent, vision) >= 500
  {
    EstimateAddsUp(info, weightsMb, LeastWindow(info, requested), concurrent, vision);
  }

  /** The target is selected against what the draft leaves of the budget, and the
      draft is then added back. */
  method PlanBesideDraft(info: ModelInfo, weightsMb: U64, requested: Option<U32>, draft: Draft,
                         concurrent: nat, budgetMb: U64, vision: bool)
    returns (r: Result<Plan, Denial>)
    requires GrowsWithContext(info)
    ensures r.Ok? ==> r.value.totalMb <= budgetMb && r.value.budgetMb == budgetMb
    ensures r.Ok? && r.value.totalMb < U64_MAX ==>
              r.value.totalMb == r.value.weightsMb + r.value.contextMb + r.value.workingMb
    ensures r.Ok? && requested.Some? ==> r.value.contextTokens == requested.value
    ensures r.Ok? && requested.None? ==> SmallestWindow(info) <= r.value.contextTokens <= InitialContext(info, None)
    ensures r.Ok? ==>
              && r.value.sessions == (if concurrent > 1 then concurrent else 1)
              && (r.value.reduced <==> requested.None? && r.value.contextTokens < InitialContext(info, None))
    ensures r.Ok? && budgetMb < U64_MAX && ContextsFit(info, r.value.contextTokens, requested, Some(draft), concurrent) ==>
              AllBytes(info, weightsMb, r.value.contextTokens, requested, Some(draft), concurrent, vision) <= budgetMb * 1_048_576
    ensures r.Ok? ==> HasParts(r.value, info, weightsMb, requested, Some(draft), concurrent, vision)
    ensures r.Ok? <==> OwnTotal(info, weightsMb, requested, concurrent, vision)
                       + DraftPlan(draft, requested, concurrent).totalMb <= budgetMb
  {
    hide Estimate, DraftPlan, Total, WithDraft, HasParts, PartsAddUp, GrowsWithContext, NeededBytes, ContextBytes, DraftBytes;
    var draftPlan := DraftPlan(draft, requested, concurrent);
    r := Select(info, weightsMb, requested, concurrent, SatSub(budgetMb, draftPlan.totalMb), vision);
    OwnTotalAtLeast(info, weightsMb, requested, concurrent, vision);
    if r.Ok? {
      Selected(r.value, info, weightsMb, requested, concurrent, vision);
      Beside(r.value, info, weightsMb, requested, draft, concurrent, budgetMb, vision);
      if budgetMb < U64_MAX && ContextsFit(info, r.value.contextTokens, requested, Some(draft), concurrent) {
        DraftInBytes(draft, requested, concurrent);
      }
      r := Ok(WithDraft(r.value, draftPlan).(budgetMb := budgetMb));
    }
  }

  lemma {:induction false} Selected(p: Plan, info: ModelInfo, weightsMb: U64, requested: Option<U32>, concurrent: nat, vision: bool)
    requires p == Estimate(info, weightsMb, p.contextTokens, concurrent, vision).(reduced := p.reduced, budgetMb := p.budgetMb)
    ensures PartsAddUp(p) && p.totalMb >= 500 && HasParts(p, info, weightsMb, requested, None, concurrent, vision)
    ensures p.sessions == if concurrent > 1 then concurrent else 1
  {
    EstimateAddsUp(info, weightsMb, p.contextTokens, concurrent, vision);
  }

  lemma {:induction false} Beside(p: Plan, info: ModelInfo, weightsMb: U64, requested: Option<U32>, draft: Draft, concurrent: nat,
                                  budgetMb: U64, vision: bool)
    requires PartsAddUp(p) && p.totalMb >= 500 && HasParts(p, info, weightsMb, requested, None, concurrent, vision)
    requires p.totalMb <= SatSub(budgetMb, DraftPlan(draft, requested, concurrent).totalMb)
    ensures var q := WithDraft(p, DraftPlan(draft, requested, concurrent)).(budgetMb := budgetMb);
            && q.totalMb <= budgetMb && q.contextTokens == p.contextTokens && q.sessions == p.sessions && q.reduced == p.reduced
            && (q.totalMb < U64_MAX ==> q.totalMb == q.weightsMb + q.contextMb + q.workingMb)
            && HasParts(q, info, weightsMb, requested, Some(draft), concurrent, vision)
  {
    DraftAddsUp(draft, requested, concurrent);
    DraftAddsParts(p, info, weightsMb, requested, draft, concurrent, budgetMb, vision);
    hide HasParts, DraftPlan;
    DraftFits(p, DraftPlan(draft, requested, concurrent), budgetMb);
  }

  /** The draft accounting of `plan_gguf`: the target is selected against what the
      draft leaves of the budget, and the draft is then added back. An accepted
      plan never exceeds the budget it was given, its total is the sum of its parts
      unless that sum is beyond 64 bits, and an explicit context is kept. With a
      draft larger than the budget nothing is accepted, although the subtraction of
      the source stops at zero. */
  method PlanGguf(info: ModelInfo, weightsMb: U64, requested: Option<U32>, draft: Option<Draft>,
                  concurrent: nat, budgetMb: U64, vision: bool)
    returns (r: Result<Plan, Denial>)
    requires GrowsWithContext(info)
    ensures r.Ok? ==> r.value.totalMb <= budgetMb && r.value.budgetMb == budgetMb
    ensures r.Ok? && r.value.totalMb < U64_MAX ==>
              r.value.totalMb == r.value.weightsMb + r.value.contextMb + r.value.workingMb
    ensures r.Ok? && requested.Some? ==> r.value.contextTokens == requested.value
    ensures r.Ok? && requested.None? ==> SmallestWindow(info) <= r.value.contextTokens <= InitialContext(info, None)
    ensures r.Ok? ==>
              && r.value.sessions == (if concurrent > 1 then concurrent else 1)
              && (r.value.reduced <==> requested.None? && r.value.contextTokens < InitialContext(info, None))
    ensures r.Ok? && budgetMb < U64_MAX && ContextsFit(info, r.value.contextTokens, requested, draft, concurrent) ==>
              AllBytes(info, weightsMb, r.value.contextTokens, requested, draft, concurrent, vision) <= budgetMb * 1_048_576
    ensures r.Ok? ==> HasParts(r.value, info, weightsMb, requested, draft, concurrent, vision)
    ensures r.Ok? <==> LeastTotal(info, weightsMb, requested, draft, concurrent, vision) <= budgetMb
  {
    match draft {
      case None =>
        r := Select(info, weightsMb, requested, concurrent, budgetMb, vision);
        if r.Ok? {
          EstimateAddsUp(info, weightsMb, r.value.contextTokens, concurrent, vision);
        }
      case Some(d) =>
        r := PlanBesideDraft(info, weightsMb, requested, d, concurrent, budgetMb, vision);
    }
  }

  /** Right at 64 bits an accepted total can be less than the sum of its parts: the
      saturated total still passes a budget of the same size. */
  lemma {:induction false} SaturatedTotal(info: ModelInfo)
    requires info.fileBytes == 0 && info.memoryNeeded(0) == info.memoryNeeded(2048) == 0
    ensures var p := Estimate(info, U64_MAX, 2048, 1, false);
            p.totalMb == U64_MAX && p.weightsMb + p.contextMb + p.workingMb == U64_MAX + 500
  {}
}
