/** Physical-device selection (src/vulkan/physical_device.rs): a score per
    device, an argmax over the enumerated devices with a strict `>`, the
    "last index wins" scan for queue families, and the required-extension
    subset test. The driver's answers (device properties, queue-family flags,
    per-family surface support, the extension list) are inputs. */
module PhysicalDevice {
  import opened VkTypes

  datatype DeviceType = OtherType | IntegratedGpu | DiscreteGpu | VirtualGpu | Cpu

  /** The properties and features rate_device reads. */
  datatype DeviceInfo = DeviceInfo(
    deviceType: DeviceType,
    maxImageDimension2D: U32,
    geometryShader: bool,
    tessellationShader: bool)

  function TypeBonus(t: DeviceType): nat
  {
    if t == DiscreteGpu then 1000 else if t == IntegratedGpu then 500 else 0
  }

  function FeatureBonus(d: DeviceInfo): nat
  {
    (if d.geometryShader then 100 else 0) + (if d.tessellationShader then 50 else 0)
  }

  /** The score of a device, as an unbounded integer. */
  function Score(d: DeviceInfo): nat
  {
    TypeBonus(d.deviceType) + d.maxImageDimension2D + FeatureBonus(d)
  }

  /** rate_device accumulates the score in a u32; every partial sum is at most
      the final one, so the accumulation overflows (a panic in a debug build)
      exactly when the final score exceeds u32::MAX. */
  method RateDevice(d: DeviceInfo) returns (score: U32)
    requires Score(d) <= U32Max
    ensures score == Score(d)
    ensures d.maxImageDimension2D <= score <= d.maxImageDimension2D + 1150
  {
    var s: nat := 0;
    if d.deviceType == DiscreteGpu {
      s := s + 1000;
    } else if d.deviceType == IntegratedGpu {
      s := s + 500;
    }
    s := s + d.maxImageDimension2D;
    if d.geometryShader {
      s := s + 100;
    }
    if d.tessellationShader {
      s := s + 50;
    }
    score := s;
  }

  /** A discrete GPU outranks an integrated one, which outranks any other
      kind, when limits and features are equal. */
  lemma DiscreteOutranksIntegrated(d: DeviceInfo)
    ensures Score(d.(deviceType := DiscreteGpu)) > Score(d.(deviceType := IntegratedGpu))
    ensures forall t :: t != DiscreteGpu && t != IntegratedGpu ==>
              Score(d.(deviceType := IntegratedGpu)) > Score(d.(deviceType := t))
  {
  }

  /** A score of zero, the value that can never be selected, means a device
      that is neither discrete nor integrated, reports no 2D image dimension
      and has neither optional shader stage. */
  lemma ZeroScoreIff(d: DeviceInfo)
    ensures Score(d) == 0 <==>
      d.deviceType != DiscreteGpu && d.deviceType != IntegratedGpu &&
      d.maxImageDimension2D == 0 && !d.geometryShader && !d.tessellationShader
  {
  }

  datatype SelectError = NoPhysicalDevices | NoBestDevice

  /** select_best_device: the index (in enumeration order) of the earliest
      device with the greatest score. The running best starts at score 0 and
      is replaced only on a strictly greater score, so a device scoring 0 is
      never chosen and ties go to the first device. */
  method SelectBestDevice(devices: seq<DeviceInfo>) returns (r: Result<nat, SelectError>)
    requires forall i :: 0 <= i < |devices| ==> Score(devices[i]) <= U32Max
    ensures r == Err(NoPhysicalDevices) <==> |devices| == 0
    ensures r == Err(NoBestDevice) <==>
      |devices| > 0 && forall i :: 0 <= i < |devices| ==> Score(devices[i]) == 0
    ensures r.Ok? ==>
      r.value < |devices| && Score(devices[r.value]) > 0 &&
      (forall i :: 0 <= i < |devices| ==> Score(devices[i]) <= Score(devices[r.value])) &&
      (forall i :: 0 <= i < r.value ==> Score(devices[i]) < Score(devices[r.value]))
  {
    if |devices| == 0 {
      return Err(NoPhysicalDevices);
    }
    var best: Option<nat> := None;
    var bestScore: nat := 0;
    var k := 0;
    while k < |devices|
      invariant 0 <= k <= |devices|
      invariant best.None? ==> bestScore == 0
      invariant best.Some? ==> best.value < k && bestScore == Score(devices[best.value]) && bestScore > 0
      invariant forall i :: 0 <= i < k ==> Score(devices[i]) <= bestScore
      invariant best.Some? ==> forall i :: 0 <= i < best.value ==> Score(devices[i]) < bestScore
    {
      var score := RateDevice(devices[k]);
      if score > bestScore {
        bestScore := score;
        best := Some(k);
      }
      k := k + 1;
    }
    if best.Some? {
      r := Ok(best.value);
    } else {
      r := Err(NoBestDevice);
    }
  }

  /** The capability bits of one queue family that find_queue_families tests. */
  datatype QueueFlags = QueueFlags(graphics: bool, compute: bool, transfer: bool)

  datatype QueueFamilyIndices = QueueFamilyIndices(
    graphicsFamily: Option<nat>,
    computeFamily: Option<nat>,
    transferFamily: Option<nat>,
    presentFamily: Option<nat>)
  {
    /** is_complete: both the graphics and the present family were found. */
    predicate IsComplete()
    {
      graphicsFamily.Some? && presentFamily.Some?
    }
  }

  /** The driver's answer to a per-family surface-support query. */
  datatype SupportQuery = Supported | Unsupported | QueryFailed

  /** A driver query that failed and was propagated with `?`. */
  datatype QueryError = SurfaceSupportQueryFailed | ExtensionQueryFailed

  /** The last index whose flag is set, or None. */
  function LastIndexWhere(flags: seq<bool>): Option<nat>
  {
    if |flags| == 0 then None
    else if flags[|flags| - 1] then Some(|flags| - 1)
    else LastIndexWhere(flags[..|flags| - 1])
  }

  lemma {:induction false} LastIndexWhereSpec(flags: seq<bool>)
    ensures LastIndexWhere(flags).None? <==> forall j :: 0 <= j < |flags| ==> !flags[j]
    ensures LastIndexWhere(flags).Some? ==>
      var i := LastIndexWhere(flags).value;
      i < |flags| && flags[i] && forall j :: i < j < |flags| ==> !flags[j]
  {
    if |flags| > 0 && !flags[|flags| - 1] {
      var prefix := flags[..|flags| - 1];
      LastIndexWhereSpec(prefix);
      assert forall j :: 0 <= j < |prefix| ==> prefix[j] == flags[j];
    }
  }

  function GraphicsFlags(fs: seq<QueueFlags>): (r: seq<bool>)
    ensures |r| == |fs| && forall i :: 0 <= i < |fs| ==> r[i] == fs[i].graphics
  {
    seq(|fs|, i requires 0 <= i < |fs| => fs[i].graphics)
  }

  function ComputeFlags(fs: seq<QueueFlags>): (r: seq<bool>)
    ensures |r| == |fs| && forall i :: 0 <= i < |fs| ==> r[i] == fs[i].compute
  {
    seq(|fs|, i requires 0 <= i < |fs| => fs[i].compute)
  }

  function TransferFlags(fs: seq<QueueFlags>): (r: seq<bool>)
    ensures |r| == |fs| && forall i :: 0 <= i < |fs| ==> r[i] == fs[i].transfer
  {
    seq(|fs|, i requires 0 <= i < |fs| => fs[i].transfer)
  }

  function SupportFlags(qs: seq<SupportQuery>): (r: seq<bool>)
    ensures |r| == |qs| && forall i :: 0 <= i < |qs| ==> r[i] == (qs[i] == Supported)
  {
    seq(|qs|, i requires 0 <= i < |qs| => qs[i] == Supported)
  }

  /** The indices find_queue_families reports when no support query fails. */
  function FamiliesOf(families: seq<QueueFlags>, support: seq<SupportQuery>): QueueFamilyIndices
  {
    QueueFamilyIndices(
      LastIndexWhere(GraphicsFlags(families)),
      LastIndexWhere(ComputeFlags(families)),
      LastIndexWhere(TransferFlags(families)),
      LastIndexWhere(SupportFlags(support)))
  }

  lemma LastIndexWhereSnoc(flags: seq<bool>, k: nat)
    requires k < |flags|
    ensures LastIndexWhere(flags[..k + 1]) ==
      if flags[k] then Some(k) else LastIndexWhere(flags[..k])
  {
    assert flags[..k + 1][..k] == flags[..k];
  }

  /** find_queue_families: a scan that overwrites each family with every index
      that has the capability, so the last such index wins. A failing support
      query aborts the scan with an error. */
  method FindQueueFamilies(families: seq<QueueFlags>, support: seq<SupportQuery>)
    returns (r: Result<QueueFamilyIndices, QueryError>)
    requires |support| == |families|
    ensures r.Err? <==> exists i :: 0 <= i < |support| && support[i] == QueryFailed
    ensures r.Ok? ==> r.value == FamiliesOf(families, support)
  {
    var graphics: Option<nat> := None;
    var compute: Option<nat> := None;
    var transfer: Option<nat> := None;
    var present: Option<nat> := None;
    var index := 0;
    while index < |families|
      invariant 0 <= index <= |families|
      invariant graphics == LastIndexWhere(GraphicsFlags(families)[..index])
      invariant compute == LastIndexWhere(ComputeFlags(families)[..index])
      invariant transfer == LastIndexWhere(TransferFlags(families)[..index])
      invariant present == LastIndexWhere(SupportFlags(support)[..index])
      invariant forall i :: 0 <= i < index ==> support[i] != QueryFailed
    {
      LastIndexWhereSnoc(GraphicsFlags(families), index);
      LastIndexWhereSnoc(ComputeFlags(families), index);
      LastIndexWhereSnoc(TransferFlags(families), index);
      LastIndexWhereSnoc(SupportFlags(support), index);
      if families[index].graphics {
        graphics := Some(index);
      }
      if families[index].compute {
        compute := Some(index);
      }
      if families[index].transfer {
        transfer := Some(index);
      }
      if support[index] == QueryFailed {
        return Err(SurfaceSupportQueryFailed);
      }
      if support[index] == Supported {
        present := Some(index);
      }
      index := index + 1;
    }
    assert GraphicsFlags(families)[..index] == GraphicsFlags(families);
    assert ComputeFlags(families)[..index] == ComputeFlags(families);
    assert TransferFlags(families)[..index] == TransferFlags(families);
    assert SupportFlags(support)[..index] == SupportFlags(support);
    r := Ok(QueueFamilyIndices(graphics, compute, transfer, present));
  }

  /** The scan's result is complete exactly when some family supports graphics
      and some family can present to the surface. */
  lemma FamiliesCompleteIff(families: seq<QueueFlags>, support: seq<SupportQuery>)
    requires |support| == |families|
    ensures FamiliesOf(families, support).IsComplete() <==>
      (exists i :: 0 <= i < |families| && families[i].graphics) &&
      (exists j :: 0 <= j < |support| && support[j] == Supported)
  {
    LastIndexWhereSpec(GraphicsFlags(families));
    LastIndexWhereSpec(SupportFlags(support));
  }

  /** Every required name occurs among the available names. */
  function AllAvailable(required: seq<string>, available: seq<string>): (b: bool)
    ensures b <==> forall i :: 0 <= i < |required| ==> required[i] in available
  {
    if |required| == 0 then true
    else (required[0] in available) && AllAvailable(required[1..], available)
  }

  /** check_device_extension_support: the extension query's failure is an
      error (None stands for it); otherwise the answer is the subset test. */
  function CheckDeviceExtensionSupport(required: seq<string>, available: Option<seq<string>>)
    : (r: Result<bool, QueryError>)
    ensures available.None? <==> r.Err?
    ensures r.Ok? ==> (r.value <==> forall i :: 0 <= i < |required| ==> required[i] in available.value)
  {
    match available
    case None => Err(ExtensionQueryFailed)
    case Some(names) => Ok(AllAvailable(required, names))
  }
}
