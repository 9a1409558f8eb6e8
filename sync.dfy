/** Per-slot synchronisation objects (src/vulkan/sync.rs): for every frame in
    flight an image-available semaphore, a render-finished semaphore and an
    in-flight fence. Fence state follows section 7.3 "Fences" of the Vulkan
    1.3 specification: signalled or unsignalled, created signalled, set
    unsignalled by a reset, and known signalled once a wait on it returns
    successfully. The driver's answers are inputs. */
module Sync {
  import opened VkTypes

  datatype SyncError =
    | SemaphoreCreationFailed(role: SemaphoreRole, slot: nat)
    | FenceCreationFailed(slot: nat)
    | WaitFailed(slot: nat)
    | ResetFailed(slot: nat)

  /** FrameSyncObjects: the three objects of one slot. */
  datatype FrameSyncObjects = FrameSyncObjects(
    imageAvailable: Semaphore,
    renderFinished: Semaphore,
    inFlightFence: Fence)

  /** The objects of slot i, named by their role. */
  function SlotObjects(i: nat): FrameSyncObjects
  {
    FrameSyncObjects(SemaphoreId(ImageAvailable, i), SemaphoreId(RenderFinished, i), FenceId(i))
  }

  /** new issues three creation calls per slot, in the order image-available
      semaphore, render-finished semaphore, fence; `failAt` numbers the first
      call that fails, if any. This is the error that call reports. */
  function CreationError(call: nat): (e: SyncError)
    ensures call % 3 == 0 ==> e == SemaphoreCreationFailed(ImageAvailable, call / 3)
    ensures call % 3 == 1 ==> e == SemaphoreCreationFailed(RenderFinished, call / 3)
    ensures call % 3 == 2 ==> e == FenceCreationFailed(call / 3)
  {
    if call % 3 == 0 then SemaphoreCreationFailed(ImageAvailable, call / 3)
    else if call % 3 == 1 then SemaphoreCreationFailed(RenderFinished, call / 3)
    else FenceCreationFailed(call / 3)
  }

  class VulkanSyncObjects {
    const imageAvailableSemaphores: seq<Semaphore>
    const renderFinishedSemaphores: seq<Semaphore>
    const inFlightFences: seq<Fence>
    const maxFramesInFlight: nat
    /** Whether each in-flight fence is signalled. */
    const signaled: array<bool>

    /** The three vectors and the fence states have one entry per slot, and
        entry i of each is the object of slot i. */
    predicate Valid()
    {
      |imageAvailableSemaphores| == maxFramesInFlight &&
      |renderFinishedSemaphores| == maxFramesInFlight &&
      |inFlightFences| == maxFramesInFlight &&
      signaled.Length == maxFramesInFlight &&
      (forall i :: 0 <= i < maxFramesInFlight ==>
         imageAvailableSemaphores[i] == SemaphoreId(ImageAvailable, i) &&
         renderFinishedSemaphores[i] == SemaphoreId(RenderFinished, i) &&
         inFlightFences[i] == FenceId(i))
    }

    constructor Init(ia: seq<Semaphore>, rf: seq<Semaphore>, fences: seq<Fence>, n: nat)
      ensures imageAvailableSemaphores == ia && renderFinishedSemaphores == rf && inFlightFences == fences
      ensures maxFramesInFlight == n
      ensures fresh(signaled) && signaled.Length == n
      ensures forall i :: 0 <= i < n ==> signaled[i]
    {
      imageAvailableSemaphores := ia;
      renderFinishedSemaphores := rf;
      inFlightFences := fences;
      maxFramesInFlight := n;
      signaled := new bool[n](_ => true);
    }

    /** VulkanSyncObjects::new: a loop creating the three objects of each slot;
        the first failed call ends construction with its error. Every fence is
        created signalled, so the first wait on any slot returns at once. */
    static method New(n: nat, failAt: Option<nat>) returns (r: Result<VulkanSyncObjects, SyncError>)
      ensures r.Err? <==> failAt.Some? && failAt.value < 3 * n
      ensures r.Err? ==> r.error == CreationError(failAt.value)
      ensures r.Ok? ==> fresh(r.value) && fresh(r.value.signaled)
      ensures r.Ok? ==> r.value.Valid() && r.value.maxFramesInFlight == n
      ensures r.Ok? ==> forall i :: 0 <= i < n ==> r.value.signaled[i]
    {
      var ia: seq<Semaphore> := [];
      var rf: seq<Semaphore> := [];
      var fences: seq<Fence> := [];
      var i := 0;
      while i < n
        invariant 0 <= i <= n
        invariant |ia| == i && |rf| == i && |fences| == i
        invariant forall k :: 0 <= k < i ==>
          ia[k] == SemaphoreId(ImageAvailable, k) && rf[k] == SemaphoreId(RenderFinished, k) && fences[k] == FenceId(k)
        invariant failAt.Some? ==> failAt.value >= 3 * i
      {
        if failAt == Some(3 * i) {
          return Err(SemaphoreCreationFailed(ImageAvailable, i));
        }
        if failAt == Some(3 * i + 1) {
          return Err(SemaphoreCreationFailed(RenderFinished, i));
        }
        if failAt == Some(3 * i + 2) {
          return Err(FenceCreationFailed(i));
        }
        ia := ia + [SemaphoreId(ImageAvailable, i)];
        rf := rf + [SemaphoreId(RenderFinished, i)];
        fences := fences + [FenceId(i)];
        i := i + 1;
      }
      var objects := new VulkanSyncObjects.Init(ia, rf, fences, n);
      r := Ok(objects);
    }

    /** wait_for_fence: waits on fence `frameIndex` alone, for all of it and
        without timeout. On success that fence is signalled; on failure
        nothing is known to change. */
    method WaitForFence(frameIndex: nat, ok: bool) returns (r: Result<(), SyncError>)
      requires Valid() && frameIndex < maxFramesInFlight
      modifies signaled
      ensures r.Ok? <==> ok
      ensures r.Err? ==> r.error == WaitFailed(frameIndex)
      ensures signaled[..] == if ok then old(signaled[..])[frameIndex := true] else old(signaled[..])
    {
      if !ok {
        return Err(WaitFailed(frameIndex));
      }
      signaled[frameIndex] := true;
      r := Ok(());
    }

    /** reset_fence: fence `frameIndex` becomes unsignalled; the others keep
        their state. */
    method ResetFence(frameIndex: nat, ok: bool) returns (r: Result<(), SyncError>)
      requires Valid() && frameIndex < maxFramesInFlight
      modifies signaled
      ensures r.Ok? <==> ok
      ensures r.Err? ==> r.error == ResetFailed(frameIndex)
      ensures signaled[..] == if ok then old(signaled[..])[frameIndex := false] else old(signaled[..])
    {
      if !ok {
        return Err(ResetFailed(frameIndex));
      }
      signaled[frameIndex] := false;
      r := Ok(());
    }

    /** get_frame_sync_objects: entry `frameIndex` of each of the three
        vectors, which are the objects of that slot. */
    function GetFrameSyncObjects(frameIndex: nat): (objects: FrameSyncObjects)
      requires Valid() && frameIndex < maxFramesInFlight
      ensures objects == SlotObjects(frameIndex)
    {
      FrameSyncObjects(imageAvailableSemaphores[frameIndex], renderFinishedSemaphores[frameIndex],
                       inFlightFences[frameIndex])
    }
  }

  /** The objects a valid VulkanSyncObjects stores: two slots never share a
      semaphore or a fence, and no stored image-available semaphore is also
      stored as a render-finished one, so no wait can be satisfied by the
      signal of another slot or of the other role. */
  lemma StoredObjectsDistinct(objects: VulkanSyncObjects, i: nat, j: nat)
    requires objects.Valid() && i < objects.maxFramesInFlight && j < objects.maxFramesInFlight
    ensures objects.imageAvailableSemaphores[i] != objects.renderFinishedSemaphores[j]
    ensures i != j ==> objects.imageAvailableSemaphores[i] != objects.imageAvailableSemaphores[j] &&
                       objects.renderFinishedSemaphores[i] != objects.renderFinishedSemaphores[j] &&
                       objects.inFlightFences[i] != objects.inFlightFences[j]
  {
  }
}
