/** The ring of per-frame synchronisation objects (`FrameSynchronizer`). */
module FrameSync {
  import opened Vectors
  import opened Vulkan

  const MAX_FRAMES_IN_FLIGHT: nat := 2

  /** The frame slot after `frame`. */
  function NextFrame(frame: nat): (r: nat)
    ensures r < MAX_FRAMES_IN_FLIGHT
    ensures frame + 1 < MAX_FRAMES_IN_FLIGHT ==> r == frame + 1
    ensures frame + 1 == MAX_FRAMES_IN_FLIGHT ==> r == 0
  {
    (frame + 1) % MAX_FRAMES_IN_FLIGHT
  }

  /** Two advances bring a slot back to itself. */
  lemma NextFrameTwice(frame: nat)
    requires frame < MAX_FRAMES_IN_FLIGHT
    ensures NextFrame(NextFrame(frame)) == frame
    ensures NextFrame(frame) != frame
  {
  }

  /** The calls of the creation loop for the slots of `ia`, `rf` and `f`: per
      slot an image-available semaphore, a render-finished semaphore and a
      fence created signalled. */
  function SlotCreations(ia: seq<Handle>, rf: seq<Handle>, f: seq<Handle>): (r: seq<Call>)
    requires |ia| == |rf| == |f|
    ensures |r| == 3 * |ia|
  {
    if ia == [] then []
    else
      var n := |ia| - 1;
      SlotCreations(ia[..n], rf[..n], f[..n])
        + [Create(ia[n], SemaphoreInfo), Create(rf[n], SemaphoreInfo), Create(f[n], FenceInfo(true))]
  }

  /** The calls of the cleanup loop: per slot the render-finished semaphore,
      the image-available semaphore, then the fence. */
  function SlotDestroys(ia: seq<Handle>, rf: seq<Handle>, f: seq<Handle>): (r: seq<Call>)
    requires |ia| == |rf| == |f|
    ensures |r| == 3 * |ia|
  {
    if ia == [] then []
    else
      var n := |ia| - 1;
      SlotDestroys(ia[..n], rf[..n], f[..n]) + [Destroy(rf[n]), Destroy(ia[n]), Destroy(f[n])]
  }

  /** Slot `k` owns calls `3k` to `3k + 2` of the creation loop: its
      image-available semaphore, its render-finished semaphore, then its
      fence created signalled. */
  lemma {:induction false} SlotCreationsAt(ia: seq<Handle>, rf: seq<Handle>, f: seq<Handle>, k: nat)
    requires k < |ia| == |rf| == |f|
    ensures var r := SlotCreations(ia, rf, f);
            && r[3 * k] == Create(ia[k], SemaphoreInfo)
            && r[3 * k + 1] == Create(rf[k], SemaphoreInfo)
            && r[3 * k + 2] == Create(f[k], FenceInfo(true))
  {
    var n := |ia| - 1;
    if k < n {
      SlotCreationsAt(ia[..n], rf[..n], f[..n], k);
    }
  }

  /** Slot `k` owns calls `3k` to `3k + 2` of the cleanup loop: its
      render-finished semaphore, its image-available semaphore, then its
      fence. */
  lemma {:induction false} SlotDestroysAt(ia: seq<Handle>, rf: seq<Handle>, f: seq<Handle>, k: nat)
    requires k < |ia| == |rf| == |f|
    ensures var r := SlotDestroys(ia, rf, f);
            r[3 * k] == Destroy(rf[k]) && r[3 * k + 1] == Destroy(ia[k]) && r[3 * k + 2] == Destroy(f[k])
  {
    var n := |ia| - 1;
    if k < n {
      SlotDestroysAt(ia[..n], rf[..n], f[..n], k);
    }
  }

  /** The calls of one more slot follow those of the slots before it. */
  lemma SlotCreationsAppend(ia: seq<Handle>, rf: seq<Handle>, f: seq<Handle>, a: Handle, r: Handle, g: Handle)
    requires |ia| == |rf| == |f|
    ensures SlotCreations(ia + [a], rf + [r], f + [g])
         == SlotCreations(ia, rf, f) + [Create(a, SemaphoreInfo), Create(r, SemaphoreInfo), Create(g, FenceInfo(true))]
  {
    assert (ia + [a])[..|ia|] == ia && (rf + [r])[..|rf|] == rf && (f + [g])[..|f|] == f;
  }

  lemma SlotDestroysStep(t0: seq<Call>, t1: seq<Call>, ia: seq<Handle>, rf: seq<Handle>, f: seq<Handle>, i: nat)
    requires i < |ia| == |rf| == |f|
    requires t1 == t0 + SlotDestroys(ia[..i], rf[..i], f[..i])
    ensures t1 + [Destroy(rf[i]), Destroy(ia[i]), Destroy(f[i])] == t0 + SlotDestroys(ia[..i + 1], rf[..i + 1], f[..i + 1])
  {
    assert ia[..i + 1][..i] == ia[..i] && rf[..i + 1][..i] == rf[..i] && f[..i + 1][..i] == f[..i];
  }

  /** The objects of one slot: new since `before`, alive, made from the
      right create-info, and the fence signalled. */
  ghost predicate SlotReady(before: map<Handle, Info>, info: map<Handle, Info>, live: set<Handle>, signalled: set<Handle>,
                            ia: Handle, rf: Handle, f: Handle)
  {
    && ia !in before && ia in info && info[ia] == SemaphoreInfo && ia in live
    && rf !in before && rf in info && info[rf] == SemaphoreInfo && rf in live
    && f !in before && f in info && info[f] == FenceInfo(true) && f in live
    && f in signalled
  }

  /** A ready slot stays ready while the driver only adds objects and
      signals fences. */
  lemma SlotReadyKept(before: map<Handle, Info>, info: map<Handle, Info>, live: set<Handle>, signalled: set<Handle>,
                      info': map<Handle, Info>, live': set<Handle>, signalled': set<Handle>,
                      ia: Handle, rf: Handle, f: Handle)
    requires SlotReady(before, info, live, signalled, ia, rf, f)
    requires Extends(info, info') && live <= live' && signalled <= signalled'
    ensures SlotReady(before, info', live', signalled', ia, rf, f)
  {
  }

  /** Every slot of `ia`, `rf` and `f` is ready. */
  ghost predicate SlotsReady(before: map<Handle, Info>, info: map<Handle, Info>, live: set<Handle>, signalled: set<Handle>,
                             ia: seq<Handle>, rf: seq<Handle>, f: seq<Handle>)
  {
    && |ia| == |rf| == |f|
    && forall k :: 0 <= k < |ia| ==> SlotReady(before, info, live, signalled, ia[k], rf[k], f[k])
  }

  /** The ready slots stay ready while the driver only adds objects and
      signals fences. */
  lemma SlotsReadyKept(before: map<Handle, Info>, info: map<Handle, Info>, live: set<Handle>, signalled: set<Handle>,
                       info': map<Handle, Info>, live': set<Handle>, signalled': set<Handle>,
                       ia: seq<Handle>, rf: seq<Handle>, f: seq<Handle>)
    requires SlotsReady(before, info, live, signalled, ia, rf, f)
    requires Extends(info, info') && live <= live' && signalled <= signalled'
    ensures SlotsReady(before, info', live', signalled', ia, rf, f)
  {
    forall k | 0 <= k < |ia| ensures SlotReady(before, info', live', signalled', ia[k], rf[k], f[k]) {
      SlotReadyKept(before, info, live, signalled, info', live', signalled', ia[k], rf[k], f[k]);
    }
  }

  /** No handle occurs twice in `hs`. */
  ghost predicate Distinct(hs: seq<Handle>) {
    forall j, k :: 0 <= j < k < |hs| ==> hs[j] != hs[k]
  }

  /** One iteration of the creation loop. */
  method CreateSlot(gpu: Gpu) returns (ia: Handle, rf: Handle, f: Handle)
    requires gpu.Valid()
    modifies gpu
    ensures gpu.Valid()
    ensures SlotReady(old(gpu.info), gpu.info, gpu.live, gpu.signalled, ia, rf, f)
    ensures Extends(old(gpu.info), gpu.info) && old(gpu.live) <= gpu.live
    ensures old(gpu.signalled) <= gpu.signalled && gpu.pending == old(gpu.pending)
    ensures gpu.trace == old(gpu.trace) + [Create(ia, SemaphoreInfo), Create(rf, SemaphoreInfo), Create(f, FenceInfo(true))]
  {
    ia := gpu.Create(SemaphoreInfo);
    rf := gpu.Create(SemaphoreInfo);
    f := gpu.Create(FenceInfo(true));
  }

  /** The state the creation loop keeps, on the driver's values: the slots
      `ia`, `rf`, `f` made since the driver held `info0`, `live0`,
      `signalled0`, `pending0` and `trace0` are ready, their fences distinct,
      and nothing else has happened. */
  ghost predicate Built(info0: map<Handle, Info>, live0: set<Handle>, signalled0: set<Handle>,
                        pending0: set<Handle>, trace0: seq<Call>,
                        info: map<Handle, Info>, live: set<Handle>, signalled: set<Handle>,
                        pending: set<Handle>, trace: seq<Call>, ia: seq<Handle>, rf: seq<Handle>, f: seq<Handle>)
  {
    && SlotsReady(info0, info, live, signalled, ia, rf, f)
    && Extends(info0, info) && live0 <= live
    && signalled0 <= signalled && pending == pending0
    && trace == trace0 + SlotCreations(ia, rf, f)
    && Distinct(f)
  }

  /** `Built`, read off the driver. */
  ghost predicate SlotsBuilt(gpu: Gpu, info0: map<Handle, Info>, live0: set<Handle>, signalled0: set<Handle>,
                             pending0: set<Handle>, trace0: seq<Call>, ia: seq<Handle>, rf: seq<Handle>, f: seq<Handle>)
    reads gpu
  {
    && gpu.Valid()
    && Built(info0, live0, signalled0, pending0, trace0,
             gpu.info, gpu.live, gpu.signalled, gpu.pending, gpu.trace, ia, rf, f)
  }

  /** One more slot, made as `CreateSlot` makes it, keeps `Built`. */
  lemma BuiltStep(info0: map<Handle, Info>, live0: set<Handle>, signalled0: set<Handle>,
                  pending0: set<Handle>, trace0: seq<Call>,
                  info1: map<Handle, Info>, live1: set<Handle>, signalled1: set<Handle>,
                  pending1: set<Handle>, trace1: seq<Call>,
                  info2: map<Handle, Info>, live2: set<Handle>, signalled2: set<Handle>,
                  pending2: set<Handle>, trace2: seq<Call>,
                  ia: seq<Handle>, rf: seq<Handle>, f: seq<Handle>, a: Handle, r: Handle, g: Handle)
    requires Built(info0, live0, signalled0, pending0, trace0, info1, live1, signalled1, pending1, trace1, ia, rf, f)
    requires SlotReady(info1, info2, live2, signalled2, a, r, g)
    requires Extends(info1, info2) && live1 <= live2 && signalled1 <= signalled2 && pending2 == pending1
    requires trace2 == trace1 + [Create(a, SemaphoreInfo), Create(r, SemaphoreInfo), Create(g, FenceInfo(true))]
    ensures Built(info0, live0, signalled0, pending0, trace0, info2, live2, signalled2, pending2, trace2,
                  ia + [a], rf + [r], f + [g])
  {
    SlotsReadyKept(info0, info1, live1, signalled1, info2, live2, signalled2, ia, rf, f);
    assert forall k :: 0 <= k < |f| ==> f[k] in info1;
    SlotCreationsAppend(ia, rf, f, a, r, g);
  }

  /** One step of the creation loop: one more slot is built. */
  method CreateNextSlot(gpu: Gpu, ghost info0: map<Handle, Info>, ghost live0: set<Handle>, ghost signalled0: set<Handle>,
                        ghost pending0: set<Handle>, ghost trace0: seq<Call>,
                        ghost ia: seq<Handle>, ghost rf: seq<Handle>, ghost f: seq<Handle>)
    returns (a: Handle, r: Handle, g: Handle)
    requires SlotsBuilt(gpu, info0, live0, signalled0, pending0, trace0, ia, rf, f)
    modifies gpu
    ensures SlotsBuilt(gpu, info0, live0, signalled0, pending0, trace0, ia + [a], rf + [r], f + [g])
  {
    ghost var info1, live1, signalled1, pending1, trace1 := gpu.info, gpu.live, gpu.signalled, gpu.pending, gpu.trace;
    a, r, g := CreateSlot(gpu);
    BuiltStep(info0, live0, signalled0, pending0, trace0, info1, live1, signalled1, pending1, trace1,
              gpu.info, gpu.live, gpu.signalled, gpu.pending, gpu.trace, ia, rf, f, a, r, g);
  }

  /** Records the handles of slot `i`, which follows the slots already
      recorded. */
  method StoreSlot(ia: array<Handle>, rf: array<Handle>, f: array<Handle>, i: nat, a: Handle, r: Handle, g: Handle)
    requires i < ia.Length == rf.Length == f.Length
    requires ia != rf && ia != f && rf != f
    modifies ia, rf, f
    ensures ia[..i + 1] == old(ia[..i]) + [a]
    ensures rf[..i + 1] == old(rf[..i]) + [r]
    ensures f[..i + 1] == old(f[..i]) + [g]
  {
    ia[i], rf[i], f[i] := a, r, g;
    assert ia[..i + 1] == old(ia[..i]) + [a];
    assert rf[..i + 1] == old(rf[..i]) + [r];
  }

  /** The creation loop of `Create`, over the three per-slot arrays. */
  method CreateSlots(gpu: Gpu, ia: array<Handle>, rf: array<Handle>, f: array<Handle>)
    requires gpu.Valid()
    requires ia.Length == rf.Length == f.Length == MAX_FRAMES_IN_FLIGHT
    requires ia != rf && ia != f && rf != f
    modifies ia, rf, f, gpu
    ensures gpu.Valid()
    ensures forall k :: 0 <= k < MAX_FRAMES_IN_FLIGHT ==> SlotReady(old(gpu.info), gpu.info, gpu.live, gpu.signalled, ia[k], rf[k], f[k])
    ensures Extends(old(gpu.info), gpu.info) && old(gpu.live) <= gpu.live
    ensures old(gpu.signalled) <= gpu.signalled && gpu.pending == old(gpu.pending)
    ensures gpu.trace == old(gpu.trace) + SlotCreations(ia[..], rf[..], f[..])
    ensures Distinct(f[..])
  {
    ghost var info0, live0, signalled0, pending0, trace0 := gpu.info, gpu.live, gpu.signalled, gpu.pending, gpu.trace;
    ghost var A, R, F: seq<Handle> := [], [], [];
    var i := 0;
    while i < MAX_FRAMES_IN_FLIGHT
      invariant 0 <= i <= MAX_FRAMES_IN_FLIGHT
      invariant A == ia[..i] && R == rf[..i] && F == f[..i]
      invariant SlotsBuilt(gpu, info0, live0, signalled0, pending0, trace0, A, R, F)
    {
      var a, r, g := CreateNextSlot(gpu, info0, live0, signalled0, pending0, trace0, A, R, F);
      StoreSlot(ia, rf, f, i, a, r, g);
      A, R, F := A + [a], R + [r], F + [g];
      i := i + 1;
    }
    assert ia[..] == A && rf[..] == R && f[..] == F;
  }

  class FrameSynchronizer {
    const imageAvailableSemaphores: array<Handle>
    const renderFinishedSemaphores: array<Handle>
    const inFlightFences: array<Handle>
    /** For every swapchain image, the frame fence of the last frame that
        rendered to it, or null. */
    var imagesInFlight: seq<Handle>
    var currentFrame: nat

    ghost predicate Valid()
      reads this
    {
      && imageAvailableSemaphores.Length == MAX_FRAMES_IN_FLIGHT
      && renderFinishedSemaphores.Length == MAX_FRAMES_IN_FLIGHT
      && inFlightFences.Length == MAX_FRAMES_IN_FLIGHT
      && imageAvailableSemaphores != renderFinishedSemaphores
      && imageAvailableSemaphores != inFlightFences
      && renderFinishedSemaphores != inFlightFences
      && currentFrame < MAX_FRAMES_IN_FLIGHT
    }

    /** Every fence recorded for an image is one of the frame fences. */
    ghost predicate ImageFencesAreFrameFences()
      reads this, inFlightFences
    {
      && inFlightFences.Length == MAX_FRAMES_IN_FLIGHT
      && forall i :: 0 <= i < |imagesInFlight| && imagesInFlight[i] != NullHandle ==>
        imagesInFlight[i] == inFlightFences[0] || imagesInFlight[i] == inFlightFences[1]
    }

    /** Both frame fences are signalled or will be signalled by a pending
        submission, so waiting on either returns. */
    ghost predicate FencesWaitable(gpu: Gpu)
      reads inFlightFences, gpu
    {
      && inFlightFences.Length == MAX_FRAMES_IN_FLIGHT
      && (inFlightFences[0] in gpu.signalled || inFlightFences[0] in gpu.pending)
      && (inFlightFences[1] in gpu.signalled || inFlightFences[1] in gpu.pending)
    }

    /** The frame slots have different fences. */
    ghost predicate FencesDistinct()
      reads inFlightFences
    {
      inFlightFences.Length == MAX_FRAMES_IN_FLIGHT && inFlightFences[0] != inFlightFences[1]
    }

    constructor ()
      ensures Valid()
      ensures fresh(imageAvailableSemaphores) && fresh(renderFinishedSemaphores) && fresh(inFlightFences)
      ensures imagesInFlight == [] && currentFrame == 0
    {
      imageAvailableSemaphores := new Handle[MAX_FRAMES_IN_FLIGHT](_ => NullHandle);
      renderFinishedSemaphores := new Handle[MAX_FRAMES_IN_FLIGHT](_ => NullHandle);
      inFlightFences := new Handle[MAX_FRAMES_IN_FLIGHT](_ => NullHandle);
      imagesInFlight := [];
      currentFrame := 0;
    }

    /** `GetNextWaitSemaphore`. */
    function GetNextWaitSemaphore(): Handle
      requires Valid()
      reads this, imageAvailableSemaphores
    {
      imageAvailableSemaphores[currentFrame]
    }

    /** `GetNextSignalSemaphore`. */
    function GetNextSignalSemaphore(): Handle
      requires Valid()
      reads this, renderFinishedSemaphores
    {
      renderFinishedSemaphores[currentFrame]
    }

    /** `GetNextFrameFence`. */
    function GetNextFrameFence(): Handle
      requires Valid()
      reads this, inFlightFences
    {
      inFlightFences[currentFrame]
    }

    /** `Create`: `imagesInFlight` is resized to the swapchain size with null
        fill, and each slot gets two semaphores and a fence that starts
        signalled. */
    method Create(gpu: Gpu, swapchainSize: u32)
      requires Valid() && gpu.Valid()
      modifies this, imageAvailableSemaphores, renderFinishedSemaphores, inFlightFences, gpu
      ensures Valid() && gpu.Valid()
      ensures imagesInFlight == Resize(old(imagesInFlight), swapchainSize, NullHandle)
      ensures (forall i :: 0 <= i < |old(imagesInFlight)| ==> old(imagesInFlight)[i] == NullHandle) ==> ImageFencesAreFrameFences()
      ensures currentFrame == old(currentFrame)
      ensures forall k :: 0 <= k < MAX_FRAMES_IN_FLIGHT ==>
                SlotReady(old(gpu.info), gpu.info, gpu.live, gpu.signalled, imageAvailableSemaphores[k], renderFinishedSemaphores[k], inFlightFences[k])
      ensures FencesWaitable(gpu) && FencesDistinct()
      ensures Extends(old(gpu.info), gpu.info) && old(gpu.live) <= gpu.live
      ensures old(gpu.signalled) <= gpu.signalled && gpu.pending == old(gpu.pending)
      ensures gpu.trace == old(gpu.trace) + SlotCreations(imageAvailableSemaphores[..], renderFinishedSemaphores[..], inFlightFences[..])
    {
      imagesInFlight := Resize(imagesInFlight, swapchainSize, NullHandle);
      CreateSlots(gpu, imageAvailableSemaphores, renderFinishedSemaphores, inFlightFences);
    }

    /** `Cleanup`: per slot, the render-finished semaphore, the image-available
        semaphore and the fence are destroyed. */
    method Cleanup(gpu: Gpu)
      requires Valid() && gpu.Valid()
      modifies gpu
      ensures gpu.Valid()
      ensures gpu.trace == old(gpu.trace) + SlotDestroys(imageAvailableSemaphores[..], renderFinishedSemaphores[..], inFlightFences[..])
      ensures gpu.live == old(gpu.live) - SlotObjects(MAX_FRAMES_IN_FLIGHT)
      ensures gpu.info == old(gpu.info)
      ensures gpu.signalled == old(gpu.signalled) && gpu.pending == old(gpu.pending)
    {
      var i := 0;
      while i < MAX_FRAMES_IN_FLIGHT
        invariant 0 <= i <= MAX_FRAMES_IN_FLIGHT
        invariant gpu.Valid()
        invariant gpu.trace == old(gpu.trace) + SlotDestroys(imageAvailableSemaphores[..i], renderFinishedSemaphores[..i], inFlightFences[..i])
        invariant gpu.live == old(gpu.live) - SlotObjects(i)
        invariant gpu.info == old(gpu.info)
        invariant gpu.signalled == old(gpu.signalled) && gpu.pending == old(gpu.pending)
      {
        ghost var t := gpu.trace;
        DestroySlot(gpu, i);
        SlotDestroysStep(old(gpu.trace), t, imageAvailableSemaphores[..], renderFinishedSemaphores[..], inFlightFences[..], i);
        SlotObjectsStep(i);
        i := i + 1;
      }
      assert imageAvailableSemaphores[..i] == imageAvailableSemaphores[..];
      assert renderFinishedSemaphores[..i] == renderFinishedSemaphores[..];
      assert inFlightFences[..i] == inFlightFences[..];
    }

    /** One iteration of the cleanup loop. */
    method DestroySlot(gpu: Gpu, i: nat)
      requires Valid() && gpu.Valid() && i < MAX_FRAMES_IN_FLIGHT
      modifies gpu
      ensures gpu.Valid()
      ensures gpu.trace == old(gpu.trace)
                             + [Destroy(renderFinishedSemaphores[i]), Destroy(imageAvailableSemaphores[i]), Destroy(inFlightFences[i])]
      ensures gpu.live == old(gpu.live) - {imageAvailableSemaphores[i], renderFinishedSemaphores[i], inFlightFences[i]}
      ensures gpu.info == old(gpu.info) && gpu.signalled == old(gpu.signalled) && gpu.pending == old(gpu.pending)
    {
      gpu.Destroy(renderFinishedSemaphores[i]);
      gpu.Destroy(imageAvailableSemaphores[i]);
      gpu.Destroy(inFlightFences[i]);
    }

    /** The handles of the first `n` slots. */
    ghost function SlotObjects(n: nat): set<Handle>
      requires Valid() && n <= MAX_FRAMES_IN_FLIGHT
      reads this, imageAvailableSemaphores, renderFinishedSemaphores, inFlightFences
    {
      Elements(imageAvailableSemaphores[..n]) + Elements(renderFinishedSemaphores[..n]) + Elements(inFlightFences[..n])
    }

    /** One more slot adds its three handles. */
    lemma SlotObjectsStep(i: nat)
      requires Valid() && i < MAX_FRAMES_IN_FLIGHT
      ensures SlotObjects(i + 1)
           == SlotObjects(i) + {imageAvailableSemaphores[i], renderFinishedSemaphores[i], inFlightFences[i]}
    {
      assert imageAvailableSemaphores[..i + 1] == imageAvailableSemaphores[..i] + [imageAvailableSemaphores[i]];
      assert renderFinishedSemaphores[..i + 1] == renderFinishedSemaphores[..i] + [renderFinishedSemaphores[i]];
      assert inFlightFences[..i + 1] == inFlightFences[..i] + [inFlightFences[i]];
    }

    /** `WaitFrameFence`: waits on the current slot's fence, which must be
        signalled or pending for the wait to return. */
    method WaitFrameFence(gpu: Gpu)
      requires Valid() && gpu.Valid()
      requires inFlightFences[currentFrame] in gpu.signalled || inFlightFences[currentFrame] in gpu.pending
      modifies gpu
      ensures gpu.Valid()
      ensures inFlightFences[currentFrame] in gpu.signalled && inFlightFences[currentFrame] !in gpu.pending
      ensures gpu.signalled == old(gpu.signalled) + {inFlightFences[currentFrame]}
      ensures gpu.pending == old(gpu.pending) - {inFlightFences[currentFrame]}
      ensures gpu.info == old(gpu.info) && gpu.live == old(gpu.live)
      ensures gpu.trace == old(gpu.trace) + [WaitForFence(inFlightFences[currentFrame])]
    {
      gpu.WaitForFence(inFlightFences[currentFrame]);
    }

    /** `ResetFrameFence`: the current slot's fence becomes unsignalled. */
    method ResetFrameFence(gpu: Gpu)
      requires Valid() && gpu.Valid()
      requires inFlightFences[currentFrame] !in gpu.pending
      modifies gpu
      ensures gpu.Valid()
      ensures inFlightFences[currentFrame] !in gpu.signalled
      ensures gpu.signalled == old(gpu.signalled) - {inFlightFences[currentFrame]} && gpu.pending == old(gpu.pending)
      ensures gpu.info == old(gpu.info) && gpu.live == old(gpu.live)
      ensures gpu.trace == old(gpu.trace) + [ResetFence(inFlightFences[currentFrame])]
    {
      gpu.ResetFence(inFlightFences[currentFrame]);
    }

    /** `WaitImageFence`: waits on the fence recorded for the image, if any,
        then records the current slot's fence for it. */
    method WaitImageFence(gpu: Gpu, imageIndex: u32)
      requires Valid() && gpu.Valid()
      requires imageIndex < |imagesInFlight|
      requires imagesInFlight[imageIndex] != NullHandle ==>
                 imagesInFlight[imageIndex] in gpu.signalled || imagesInFlight[imageIndex] in gpu.pending
      modifies this, gpu
      ensures Valid() && gpu.Valid()
      ensures imagesInFlight == old(imagesInFlight)[imageIndex := inFlightFences[currentFrame]]
      ensures currentFrame == old(currentFrame)
      ensures old(ImageFencesAreFrameFences()) ==> ImageFencesAreFrameFences()
      ensures old(imagesInFlight[imageIndex]) == NullHandle ==> gpu.trace == old(gpu.trace) && gpu.signalled == old(gpu.signalled)
      ensures old(imagesInFlight[imageIndex]) != NullHandle ==>
                && gpu.trace == old(gpu.trace) + [WaitForFence(old(imagesInFlight[imageIndex]))]
                && gpu.signalled == old(gpu.signalled) + {old(imagesInFlight[imageIndex])}
      ensures gpu.pending == old(gpu.pending) - {old(imagesInFlight[imageIndex])}
      ensures gpu.info == old(gpu.info) && gpu.live == old(gpu.live)
    {
      if imagesInFlight[imageIndex] != NullHandle {
        gpu.WaitForFence(imagesInFlight[imageIndex]);
      }
      imagesInFlight := imagesInFlight[imageIndex := inFlightFences[currentFrame]];
    }

    /** Not in the source: re-sizes `imagesInFlight` to a new image count,
        keeping the fences recorded for the images that remain and giving
        the new ones none. */
    method ResizeImages(n: nat)
      requires Valid() && ImageFencesAreFrameFences()
      modifies this
      ensures Valid() && ImageFencesAreFrameFences()
      ensures |imagesInFlight| == n
      ensures imagesInFlight == Resize(old(imagesInFlight), n, NullHandle)
      ensures currentFrame == old(currentFrame)
    {
      imagesInFlight := Resize(imagesInFlight, n, NullHandle);
    }

    /** `IncrementFrame`. */
    method IncrementFrame()
      requires Valid()
      modifies this
      ensures Valid()
      ensures currentFrame == NextFrame(old(currentFrame))
      ensures imagesInFlight == old(imagesInFlight)
      ensures ImageFencesAreFrameFences() == old(ImageFencesAreFrameFences())
    {
      currentFrame := (currentFrame + 1) % MAX_FRAMES_IN_FLIGHT;
    }
  }
}
