/** Logical-device creation (src/vulkan/device.rs): the required-extension
    gate, the set of distinct queue families that get one queue-create info
    each, and the mapping of optional families to optional queues. The driver's
    answers (the extension list, whether vkCreateDevice succeeds) are inputs;
    a queue is named by its family and its index within the family. */
module LogicalDevice {
  import opened VkTypes
  import opened PhysicalDevice

  const SwapchainExtensionName: string := "VK_KHR_swapchain"

  /** get_required_device_extensions. */
  function RequiredDeviceExtensions(): (names: seq<string>)
    ensures |names| == 1 && names[0] == SwapchainExtensionName
  {
    [SwapchainExtensionName]
  }

  /** One queue is requested per distinct family, with a single priority. */
  datatype QueueCreateInfo = QueueCreateInfo(familyIndex: nat, queueCount: nat)

  datatype DeviceError = DeviceQueryFailed(cause: QueryError) | MissingExtensions | DeviceCreationFailed

  datatype VulkanDevice = VulkanDevice(
    graphicsQueue: QueueHandle,
    computeQueue: Option<QueueHandle>,
    transferQueue: Option<QueueHandle>,
    presentQueue: Option<QueueHandle>,
    queueFamilyIndices: QueueFamilyIndices,
    queueCreateInfos: seq<QueueCreateInfo>,
    enabledExtensions: seq<string>)

  /** f is one of the families the indices name. */
  predicate NamesFamily(q: QueueFamilyIndices, f: nat)
  {
    q.graphicsFamily == Some(f) || q.computeFamily == Some(f) ||
    q.transferFamily == Some(f) || q.presentFamily == Some(f)
  }

  /** The HashSet filled by four conditional inserts. */
  method UniqueQueueFamilies(q: QueueFamilyIndices) returns (families: set<nat>)
    ensures forall f :: f in families <==> NamesFamily(q, f)
  {
    families := {};
    if q.graphicsFamily.Some? {
      families := families + {q.graphicsFamily.value};
    }
    if q.computeFamily.Some? {
      families := families + {q.computeFamily.value};
    }
    if q.transferFamily.Some? {
      families := families + {q.transferFamily.value};
    }
    if q.presentFamily.Some? {
      families := families + {q.presentFamily.value};
    }
  }

  /** The families a list of create infos names. */
  function InfoFamilies(infos: seq<QueueCreateInfo>): set<nat>
  {
    set i | 0 <= i < |infos| :: infos[i].familyIndex
  }

  lemma InfoFamiliesMembership(infos: seq<QueueCreateInfo>, f: nat)
    ensures f in InfoFamilies(infos) <==> exists i :: 0 <= i < |infos| && infos[i].familyIndex == f
  {
  }

  /** No family is named twice. */
  predicate DistinctFamilies(infos: seq<QueueCreateInfo>)
  {
    forall i, j :: 0 <= i < j < |infos| ==> infos[i].familyIndex != infos[j].familyIndex
  }

  lemma InfoFamiliesSnoc(infos: seq<QueueCreateInfo>, x: QueueCreateInfo)
    ensures InfoFamilies(infos + [x]) == InfoFamilies(infos) + {x.familyIndex}
    ensures DistinctFamilies(infos) && x.familyIndex !in InfoFamilies(infos) ==> DistinctFamilies(infos + [x])
  {
    var ext := infos + [x];
    forall g | g in InfoFamilies(infos) ensures g in InfoFamilies(ext) {
      var i :| 0 <= i < |infos| && infos[i].familyIndex == g;
      assert ext[i] == infos[i];
    }
    assert ext[|infos|] == x;
    if DistinctFamilies(infos) && x.familyIndex !in InfoFamilies(infos) {
      forall i, j | 0 <= i < j < |ext| ensures ext[i].familyIndex != ext[j].familyIndex {
        if j == |infos| {
          assert ext[i].familyIndex in InfoFamilies(infos);
        }
      }
    }
  }

  /** Collecting the set into a vector of create infos: the iteration order of
      a HashSet is unspecified, so any order is allowed; each family appears
      exactly once. */
  method QueueCreateInfos(families: set<nat>) returns (infos: seq<QueueCreateInfo>)
    ensures InfoFamilies(infos) == families
    ensures DistinctFamilies(infos)
    ensures forall i :: 0 <= i < |infos| ==> infos[i].queueCount == 1
  {
    infos := [];
    var rest := families;
    while rest != {}
      invariant rest <= families
      invariant InfoFamilies(infos) + rest == families
      invariant InfoFamilies(infos) !! rest
      invariant DistinctFamilies(infos)
      invariant forall i :: 0 <= i < |infos| ==> infos[i].queueCount == 1
      decreases |rest|
    {
      var f :| f in rest;
      InfoFamiliesSnoc(infos, QueueCreateInfo(f, 1));
      infos := infos + [QueueCreateInfo(f, 1)];
      rest := rest - {f};
    }
  }

  /** The queue of an optional family, if there is one. */
  function QueueFor(family: Option<nat>): (queue: Option<QueueHandle>)
    ensures queue.Some? <==> family.Some?
    ensures queue.Some? ==> queue.value == QueueOf(family.value, 0)
  {
    match family
    case None => None
    case Some(f) => Some(QueueOf(f, 0))
  }

  /** VulkanDevice::new. The graphics family is unwrapped only after the
      extension gate and vkCreateDevice have succeeded, so only then is a
      missing graphics family a panic. */
  method New(q: QueueFamilyIndices, availableExtensions: Option<seq<string>>, createOk: bool)
    returns (r: Result<VulkanDevice, DeviceError>)
    requires (availableExtensions.Some? && SwapchainExtensionName in availableExtensions.value && createOk)
             ==> q.graphicsFamily.Some?
    ensures availableExtensions.None? ==> r == Err(DeviceQueryFailed(ExtensionQueryFailed))
    ensures availableExtensions.Some? && SwapchainExtensionName !in availableExtensions.value ==>
              r == Err(MissingExtensions)
    ensures availableExtensions.Some? && SwapchainExtensionName in availableExtensions.value && !createOk ==>
              r == Err(DeviceCreationFailed)
    ensures r.Ok? <==> availableExtensions.Some? && SwapchainExtensionName in availableExtensions.value && createOk
    ensures r.Ok? ==>
      var d := r.value;
      availableExtensions.Some? && SwapchainExtensionName in availableExtensions.value &&
      d.enabledExtensions == RequiredDeviceExtensions() &&
      d.queueFamilyIndices == q &&
      d.graphicsQueue == QueueOf(q.graphicsFamily.value, 0) &&
      d.computeQueue == QueueFor(q.computeFamily) &&
      d.transferQueue == QueueFor(q.transferFamily) &&
      d.presentQueue == QueueFor(q.presentFamily) &&
      (forall f :: NamesFamily(q, f) <==> f in InfoFamilies(d.queueCreateInfos)) &&
      (forall i, j :: 0 <= i < j < |d.queueCreateInfos| ==>
         d.queueCreateInfos[i].familyIndex != d.queueCreateInfos[j].familyIndex)
  {
    var extensions := RequiredDeviceExtensions();
    var supported := CheckDeviceExtensionSupport(extensions, availableExtensions);
    if supported.Err? {
      return Err(DeviceQueryFailed(supported.error));
    }
    if !supported.value {
      return Err(MissingExtensions);
    }
    var families := UniqueQueueFamilies(q);
    var infos := QueueCreateInfos(families);
    if !createOk {
      return Err(DeviceCreationFailed);
    }
    var graphicsQueue := QueueOf(q.graphicsFamily.value, 0);
    r := Ok(VulkanDevice(graphicsQueue, QueueFor(q.computeFamily), QueueFor(q.transferFamily),
      QueueFor(q.presentFamily), q, infos, extensions));
  }
}
