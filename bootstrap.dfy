/**
 * The selection rules `GraphicsContext::new` applies before it builds the
 * swapchain (`src/graphics/context.rs`): which physical device, which queue
 * family, how many swapchain images, which present mode and which surface
 * format. Devices, queue families and surface capabilities are descriptors
 * given as values; an `unwrap` that would panic is an `Err` here.
 */
module Bootstrap {
  import opened Outcomes
  import opened Types

  datatype PhysicalDeviceType = IntegratedGpu | DiscreteGpu | VirtualGpu | Cpu | OtherDeviceType

  /**
   * A queue family. `surfaceSupport` is the answer of `surface.is_supported(q)`:
   * `None` when the query itself failed.
   */
  datatype QueueFamily = QueueFamily(id: nat, supportsGraphics: bool, surfaceSupport: Option<bool>)

  datatype Format = R8G8B8A8Srgb | R8G8B8A8Unorm | OtherFormat(code: nat)

  datatype ColorSpace = SrgbNonLinear | OtherColorSpace(code: nat)

  datatype PresentMode = Immediate | Mailbox | Fifo | Relaxed

  datatype CompositeAlpha = Opaque | PreMultiplied | PostMultiplied | Inherit

  /** What `surface.capabilities(physical_device)` reports. */
  datatype SurfaceCapabilities = SurfaceCapabilities(
    minImageCount: nat,
    maxImageCount: Option<nat>,
    currentExtent: Option<Extent>,
    supportedCompositeAlpha: seq<CompositeAlpha>,
    supportedFormats: seq<(Format, ColorSpace)>,
    presentModes: set<PresentMode>)

  /** A physical device with its queue families and the window surface's capabilities on it. */
  datatype PhysicalDevice = PhysicalDevice(
    name: string,
    ty: PhysicalDeviceType,
    queueFamilies: seq<QueueFamily>,
    capabilities: SurfaceCapabilities)

  // ---------------------------------------------------------------------
  // Physical device
  // ---------------------------------------------------------------------

  /** The sort key of a device: discrete 0, integrated 1, anything else 2. */
  function Rank(d: PhysicalDevice): (k: nat)
    ensures k <= 2
    ensures k == 0 <==> d.ty == DiscreteGpu
    ensures k == 1 <==> d.ty == IntegratedGpu
  {
    match d.ty
    case DiscreteGpu => 0
    case IntegratedGpu => 1
    case _ => 2
  }

  /** The devices of rank `k`, in their original order. */
  function WithRank(ds: seq<PhysicalDevice>, k: nat): (r: seq<PhysicalDevice>)
    ensures forall i :: 0 <= i < |r| ==> Rank(r[i]) == k
    ensures |r| <= |ds|
    decreases |ds|
  {
    if ds == [] then []
    else (if Rank(ds[0]) == k then [ds[0]] else []) + WithRank(ds[1..], k)
  }

  /** Devices of rank 0, then of rank 1, then of rank 2 are in rank order. */
  lemma RankGroupsSorted(a: seq<PhysicalDevice>, b: seq<PhysicalDevice>, c: seq<PhysicalDevice>)
    requires forall i :: 0 <= i < |a| ==> Rank(a[i]) == 0
    requires forall i :: 0 <= i < |b| ==> Rank(b[i]) == 1
    requires forall i :: 0 <= i < |c| ==> Rank(c[i]) == 2
    ensures forall i, j :: 0 <= i < j < |a + b + c| ==> Rank((a + b + c)[i]) <= Rank((a + b + c)[j])
  {
    var s := a + b + c;
    forall i, j | 0 <= i < j < |s| ensures Rank(s[i]) <= Rank(s[j]) {
      if i < |a| {
        assert Rank(s[i]) == 0;
      } else if i < |a| + |b| {
        assert s[i] == b[i - |a|];
        assert s[j] == if j < |a| + |b| then b[j - |a|] else c[j - |a| - |b|];
      } else {
        assert s[i] == c[i - |a| - |b|] && s[j] == c[j - |a| - |b|];
      }
    }
  }

  /** Splitting the devices by rank loses and duplicates none of them. */
  lemma {:induction false} RanksPartition(ds: seq<PhysicalDevice>)
    ensures multiset(WithRank(ds, 0)) + multiset(WithRank(ds, 1)) + multiset(WithRank(ds, 2)) == multiset(ds)
    decreases |ds|
  {
    if ds != [] {
      RanksPartition(ds[1..]);
      assert ds == [ds[0]] + ds[1..];
    }
  }

  /** Filtering a concatenation is concatenating the filters. */
  lemma {:induction false} WithRankConcat(a: seq<PhysicalDevice>, b: seq<PhysicalDevice>, k: nat)
    ensures WithRank(a + b, k) == WithRank(a, k) + WithRank(b, k)
    decreases |a|
  {
    if a != [] {
      assert (a + b)[0] == a[0];
      assert (a + b)[1..] == a[1..] + b;
      WithRankConcat(a[1..], b, k);
      assert WithRank(a + b, k) == (if Rank(a[0]) == k then [a[0]] else []) + WithRank(a[1..] + b, k);
    } else {
      assert a + b == b;
    }
  }

  /** Filtering an all-rank-`j` sequence by rank `k`. */
  lemma {:induction false} WithRankOfUniform(ds: seq<PhysicalDevice>, j: nat, k: nat)
    requires forall i :: 0 <= i < |ds| ==> Rank(ds[i]) == j
    ensures WithRank(ds, k) == if j == k then ds else []
    decreases |ds|
  {
    if ds != [] {
      WithRankOfUniform(ds[1..], j, k);
    }
  }

  /** The sort is stable: the devices of each rank keep their relative order. */
  lemma SortedByRankIsStable(ds: seq<PhysicalDevice>, k: nat)
    ensures WithRank(SortedByRank(ds), k) == WithRank(ds, k)
  {
    var a, b, c := WithRank(ds, 0), WithRank(ds, 1), WithRank(ds, 2);
    WithRankConcat(a + b, c, k);
    WithRankConcat(a, b, k);
    WithRankOfUniform(a, 0, k);
    WithRankOfUniform(b, 1, k);
    WithRankOfUniform(c, 2, k);
    if k > 2 {
      WithRankEmptyAbove(ds, k);
    }
  }

  /**
   * `available_devices.sort_by_key(rank)`: the standard library's sort is
   * stable, and a stable sort by a key with three values is the devices of
   * rank 0, then those of rank 1, then those of rank 2, each group in its
   * original order. The result is ordered by rank and is a permutation of
   * the input; `SortedByRankIsStable` states the stability.
   */
  function SortedByRank(ds: seq<PhysicalDevice>): (r: seq<PhysicalDevice>)
    ensures forall i, j :: 0 <= i < j < |r| ==> Rank(r[i]) <= Rank(r[j])
    ensures multiset(r) == multiset(ds)
  {
    RankGroupsSorted(WithRank(ds, 0), WithRank(ds, 1), WithRank(ds, 2));
    RanksPartition(ds);
    WithRank(ds, 0) + WithRank(ds, 1) + WithRank(ds, 2)
  }

  /** No device has a rank above 2. */
  lemma {:induction false} WithRankEmptyAbove(ds: seq<PhysicalDevice>, k: nat)
    requires k > 2
    ensures WithRank(ds, k) == []
    decreases |ds|
  {
    if ds != [] {
      WithRankEmptyAbove(ds[1..], k);
    }
  }

  /** `available_devices.iter().cloned().next().unwrap()` after the sort; `None` is the panic on no device. */
  function SelectPhysicalDevice(available: seq<PhysicalDevice>): (r: Option<PhysicalDevice>)
    ensures r.Some? <==> |available| > 0
    ensures r.Some? ==> r.value in available
  {
    var sorted := SortedByRank(available);
    assert |multiset(sorted)| == |multiset(available)|;
    if |sorted| == 0 then None
    else
      assert sorted[0] in multiset(available);
      Some(sorted[0])
  }

  /** The first device of rank `k` is the first device in the list with that rank. */
  lemma {:induction false} WithRankFirst(ds: seq<PhysicalDevice>, k: nat)
    requires |WithRank(ds, k)| > 0
    ensures exists i :: (0 <= i < |ds| && ds[i] == WithRank(ds, k)[0] && Rank(ds[i]) == k
                         && forall j :: 0 <= j < i ==> Rank(ds[j]) != k)
    decreases |ds|
  {
    if Rank(ds[0]) != k {
      WithRankFirst(ds[1..], k);
      var i :| 0 <= i < |ds[1..]| && ds[1..][i] == WithRank(ds[1..], k)[0] && Rank(ds[1..][i]) == k
               && forall j :: 0 <= j < i ==> Rank(ds[1..][j]) != k;
      assert ds[i + 1] == ds[1..][i];
      assert forall j :: 1 <= j < i + 1 ==> ds[j] == ds[1..][j - 1];
    } else {
      assert ds[0] == WithRank(ds, k)[0];
    }
  }

  /** A rank with no member in the list has an empty filter, and conversely. */
  lemma {:induction false} WithRankEmpty(ds: seq<PhysicalDevice>, k: nat)
    ensures WithRank(ds, k) == [] <==> forall i :: 0 <= i < |ds| ==> Rank(ds[i]) != k
    decreases |ds|
  {
    if ds != [] {
      WithRankEmpty(ds[1..], k);
      assert forall i :: 1 <= i < |ds| ==> ds[i] == ds[1..][i - 1];
    }
  }

  /**
   * The first device of rank `k`, when no device ranks better than `k`, is a
   * first device of best rank.
   */
  lemma FirstOfLowestRank(ds: seq<PhysicalDevice>, k: nat)
    requires |WithRank(ds, k)| > 0
    requires forall j :: 0 <= j < |ds| ==> k <= Rank(ds[j])
    ensures exists i :: (0 <= i < |ds| && ds[i] == WithRank(ds, k)[0]
                         && (forall j :: 0 <= j < |ds| ==> Rank(ds[i]) <= Rank(ds[j]))
                         && (forall j :: 0 <= j < i ==> Rank(ds[j]) > Rank(ds[i])))
  {
    WithRankFirst(ds, k);
  }

  /**
   * The chosen device is the first available device of the best rank: no
   * device ranks better, and every earlier device ranks worse.
   */
  lemma SelectedDeviceIsFirstOfBestRank(available: seq<PhysicalDevice>)
    requires |available| > 0
    ensures SelectPhysicalDevice(available).Some?
    ensures exists k :: (0 <= k < |available| && available[k] == SelectPhysicalDevice(available).value
                         && (forall j :: 0 <= j < |available| ==> Rank(available[k]) <= Rank(available[j]))
                         && (forall j :: 0 <= j < k ==> Rank(available[j]) > Rank(available[k])))
  {
    var sorted := SortedByRank(available);
    var a, b, c := WithRank(available, 0), WithRank(available, 1), WithRank(available, 2);
    assert sorted == a + b + c;
    if |a| > 0 {
      assert sorted[0] == a[0];
      FirstOfLowestRank(available, 0);
    } else if |b| > 0 {
      assert sorted[0] == b[0];
      WithRankEmpty(available, 0);
      FirstOfLowestRank(available, 1);
    } else {
      assert sorted[0] == c[0];
      WithRankEmpty(available, 0);
      WithRankEmpty(available, 1);
      FirstOfLowestRank(available, 2);
    }
  }

  // ---------------------------------------------------------------------
  // Queue family
  // ---------------------------------------------------------------------

  /** A family the context can use: it draws and presents to the surface (a failed query counts as no). */
  predicate Usable(q: QueueFamily)
  {
    q.supportsGraphics && q.surfaceSupport.GetOr(false)
  }

  /** `queue_families().find(usable)`, as an index from `from` on; `None` is the panic of `unwrap`. */
  function FindQueueFamily(families: seq<QueueFamily>, from: nat): (r: Option<nat>)
    requires from <= |families|
    ensures r.Some? ==> from <= r.value < |families| && Usable(families[r.value])
    ensures r.Some? ==> forall j :: from <= j < r.value ==> !Usable(families[j])
    ensures r.None? ==> forall j :: from <= j < |families| ==> !Usable(families[j])
    decreases |families| - from
  {
    if from == |families| then None
    else if Usable(families[from]) then Some(from)
    else FindQueueFamily(families, from + 1)
  }

  // ---------------------------------------------------------------------
  // Swapchain image count, present mode, surface format
  // ---------------------------------------------------------------------

  /**
   * The swapchain image count: one more than the surface minimum, lowered to
   * the surface maximum when there is one and it is exceeded.
   */
  method ImageCount(caps: SurfaceCapabilities) returns (count: nat)
    ensures count <= caps.minImageCount + 1
    ensures caps.maxImageCount.None? ==> count == caps.minImageCount + 1
    ensures caps.maxImageCount.Some? ==> count <= caps.maxImageCount.value
    ensures count == caps.minImageCount + 1 || (caps.maxImageCount.Some? && count == caps.maxImageCount.value)
  {
    count := caps.minImageCount + 1;
    if caps.maxImageCount.Some? {
      var maxImageCount := caps.maxImageCount.value;
      if count > maxImageCount {
        count := maxImageCount;
      }
    }
  }

  /**
   * The present mode: with vsync, Mailbox if the surface supports it, else
   * Fifo if supported, else Immediate; without vsync always Immediate.
   * Immediate is chosen even when the surface does not list it.
   */
  method ChoosePresentMode(modes: set<PresentMode>, vsync: bool) returns (mode: PresentMode)
    ensures !vsync ==> mode == Immediate
    ensures mode == Mailbox <==> vsync && Mailbox in modes
    ensures mode == Fifo <==> vsync && Mailbox !in modes && Fifo in modes
    ensures mode == Immediate || mode == Mailbox || mode == Fifo
    ensures mode != Immediate ==> mode in modes
  {
    mode := Immediate;
    if vsync {
      if Mailbox in modes {
        mode := Mailbox;
      } else if Fifo in modes {
        mode := Fifo;
      }
    }
  }

  /** The preference of a surface format: sRGB RGBA8 2, UNORM RGBA8 1, anything else 0. */
  function FormatKey(f: (Format, ColorSpace)): nat
  {
    match f.0
    case R8G8B8A8Srgb => 2
    case R8G8B8A8Unorm => 1
    case OtherFormat(_) => 0
  }

  /**
   * `supported_formats.iter().max_by_key(FormatKey)`: the standard library
   * returns the LAST of several equally preferred elements. The result is the
   * index of an element of largest key after which no element has that key.
   */
  function MaxByKeyIndex(formats: seq<(Format, ColorSpace)>): (k: nat)
    requires |formats| > 0
    ensures k < |formats|
    ensures forall j :: 0 <= j < |formats| ==> FormatKey(formats[j]) <= FormatKey(formats[k])
    ensures forall j :: k < j < |formats| ==> FormatKey(formats[j]) < FormatKey(formats[k])
  {
    if |formats| == 1 then 0
    else
      var k := MaxByKeyIndex(formats[..|formats| - 1]);
      assert forall j :: 0 <= j < |formats| - 1 ==> formats[..|formats| - 1][j] == formats[j];
      if FormatKey(formats[|formats| - 1]) >= FormatKey(formats[k]) then |formats| - 1 else k
  }

  /**
   * The chosen surface format; `None` is the panic of `unwrap` on an empty
   * list. sRGB RGBA8 is chosen whenever the surface offers it, UNORM RGBA8
   * when it offers that but no sRGB, and otherwise some offered format.
   */
  function ChooseSurfaceFormat(formats: seq<(Format, ColorSpace)>): (r: Option<Format>)
    ensures r.Some? <==> |formats| > 0
    ensures r.Some? ==> exists i :: 0 <= i < |formats| && formats[i].0 == r.value
    ensures (exists i :: 0 <= i < |formats| && formats[i].0 == R8G8B8A8Srgb) ==> r == Some(R8G8B8A8Srgb)
    ensures ((forall i :: 0 <= i < |formats| ==> formats[i].0 != R8G8B8A8Srgb)
             && (exists i :: 0 <= i < |formats| && formats[i].0 == R8G8B8A8Unorm))
            ==> r == Some(R8G8B8A8Unorm)
  {
    if |formats| == 0 then None
    else
      var k := MaxByKeyIndex(formats);
      assert FormatKey(formats[k]) == 2 ==> formats[k].0 == R8G8B8A8Srgb;
      assert FormatKey(formats[k]) == 1 ==> formats[k].0 == R8G8B8A8Unorm;
      Some(formats[k].0)
  }

  // ---------------------------------------------------------------------
  // Everything `new` decides before calling `Swapchain::new`
  // ---------------------------------------------------------------------

  datatype BootstrapFailure = NoPhysicalDevice | NoUsableQueueFamily | NoCompositeAlpha | NoSurfaceFormat

  /** The arguments `new` hands to `Device::new` and `Swapchain::new`. */
  datatype SwapchainPlan = SwapchainPlan(
    device: PhysicalDevice,
    queueFamily: QueueFamily,
    dimensions: Extent,
    compositeAlpha: CompositeAlpha,
    format: Format,
    imageCount: nat,
    presentMode: PresentMode)

  /**
   * The selection steps of `GraphicsContext::new`, in source order. The
   * window size converted to pixels is `windowExtent`, used when the surface
   * reports no current extent.
   */
  method PlanSwapchain(available: seq<PhysicalDevice>, vsync: bool, windowExtent: Extent)
    returns (r: Result<SwapchainPlan, BootstrapFailure>)
    ensures SelectPhysicalDevice(available).None? <==> r == Err(NoPhysicalDevice)
    ensures r == Err(NoUsableQueueFamily) <==>
      SelectPhysicalDevice(available).Some? && FindQueueFamily(SelectPhysicalDevice(available).value.queueFamilies, 0).None?
    ensures r == Err(NoCompositeAlpha) <==>
      && SelectPhysicalDevice(available).Some?
      && FindQueueFamily(SelectPhysicalDevice(available).value.queueFamilies, 0).Some?
      && SelectPhysicalDevice(available).value.capabilities.supportedCompositeAlpha == []
    ensures r == Err(NoSurfaceFormat) <==>
      && SelectPhysicalDevice(available).Some?
      && FindQueueFamily(SelectPhysicalDevice(available).value.queueFamilies, 0).Some?
      && SelectPhysicalDevice(available).value.capabilities.supportedCompositeAlpha != []
      && SelectPhysicalDevice(available).value.capabilities.supportedFormats == []
    ensures r.Ok? ==>
      && SelectPhysicalDevice(available) == Some(r.value.device)
      && var d := r.value.device;
      && var caps := d.capabilities;
      && r.value.queueFamily in d.queueFamilies && Usable(r.value.queueFamily)
      && FindQueueFamily(d.queueFamilies, 0).Some?
      && r.value.queueFamily == d.queueFamilies[FindQueueFamily(d.queueFamilies, 0).value]
      && r.value.dimensions == caps.currentExtent.GetOr(windowExtent)
      && |caps.supportedCompositeAlpha| > 0
      && r.value.compositeAlpha == caps.supportedCompositeAlpha[0]
      && ChooseSurfaceFormat(caps.supportedFormats) == Some(r.value.format)
      && r.value.imageCount == (if caps.maxImageCount.Some? && caps.minImageCount + 1 > caps.maxImageCount.value
                                then caps.maxImageCount.value else caps.minImageCount + 1)
      && (r.value.presentMode == Immediate || r.value.presentMode == Mailbox || r.value.presentMode == Fifo)
      && (r.value.presentMode == Mailbox <==> vsync && Mailbox in caps.presentModes)
      && (r.value.presentMode == Fifo <==> vsync && Mailbox !in caps.presentModes && Fifo in caps.presentModes)
  {
    var chosen := SelectPhysicalDevice(available);
    if chosen.None? {
      return Err(NoPhysicalDevice);
    }
    var device := chosen.value;
    var family := FindQueueFamily(device.queueFamilies, 0);
    if family.None? {
      return Err(NoUsableQueueFamily);
    }
    var caps := device.capabilities;
    var dimensions := caps.currentExtent.GetOr(windowExtent);
    if |caps.supportedCompositeAlpha| == 0 {
      return Err(NoCompositeAlpha);
    }
    var alpha := caps.supportedCompositeAlpha[0];
    var format := ChooseSurfaceFormat(caps.supportedFormats);
    if format.None? {
      return Err(NoSurfaceFormat);
    }
    var imageCount := ImageCount(caps);
    var presentMode := ChoosePresentMode(caps.presentModes, vsync);
    r := Ok(SwapchainPlan(device, device.queueFamilies[family.value], dimensions, alpha, format.value, imageCount, presentMode));
  }
}
