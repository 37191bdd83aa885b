/** Queue-family selection (`FindQueueFamilies`, `QueueFamilyIndices`). */
module VulkanQueue {
  import opened Wrappers
  import opened Vulkan

  /** The graphics and present family chosen for a device; either may be unset. */
  datatype QueueFamilyIndices = QueueFamilyIndices(graphicsFamily: Option<u32>, presentFamily: Option<u32>) {
    /** `isValid`: both families are set. */
    predicate IsValid() {
      graphicsFamily.Some? && presentFamily.Some?
    }
  }

  predicate HasGraphics(f: QueueFamily) {
    f.queueFlags & VK_QUEUE_GRAPHICS_BIT != 0
  }

  /** `r` is the last index of `fams` whose family satisfies `p`, or `None`
      when no family does. */
  ghost predicate IsLastWhere(fams: seq<QueueFamily>, p: QueueFamily -> bool, r: Option<u32>) {
    match r
    case None => forall i :: 0 <= i < |fams| ==> !p(fams[i])
    case Some(k) => k < |fams| && p(fams[k]) && forall j :: k < j < |fams| ==> !p(fams[j])
  }

  /** The indices the family scan produces: each family examined in order
      overwrites the index it qualifies for. */
  function QueueFamilies(fams: Families): (r: QueueFamilyIndices)
    ensures IsLastWhere(fams, HasGraphics, r.graphicsFamily)
    ensures IsLastWhere(fams, (f: QueueFamily) => f.presentSupport, r.presentFamily)
    ensures r.IsValid() <==>
              (exists i :: 0 <= i < |fams| && HasGraphics(fams[i])) &&
              (exists i :: 0 <= i < |fams| && fams[i].presentSupport)
    decreases |fams|
  {
    if fams == [] then QueueFamilyIndices(None, None)
    else
      var last := |fams| - 1;
      var before := QueueFamilies(fams[..last]);
      QueueFamilyIndices(
        if HasGraphics(fams[last]) then Some(last) else before.graphicsFamily,
        if fams[last].presentSupport then Some(last) else before.presentFamily)
  }

  /** One more family examined by the scan. */
  lemma QueueFamiliesStep(fams: Families, i: nat)
    requires i < |fams|
    ensures QueueFamilies(fams[..i + 1]) ==
              QueueFamilyIndices(
                if HasGraphics(fams[i]) then Some(i) else QueueFamilies(fams[..i]).graphicsFamily,
                if fams[i].presentSupport then Some(i) else QueueFamilies(fams[..i]).presentFamily)
  {
    assert fams[..i + 1][..i] == fams[..i];
  }

  /** `FindQueueFamilies`: scans the families of `device` in order; the index
      is overwritten by every later match, so the last matching family wins. */
  method FindQueueFamilies(device: PhysicalDevice) returns (indices: QueueFamilyIndices)
    ensures indices == QueueFamilies(device.queueFamilies)
    ensures IsLastWhere(device.queueFamilies, HasGraphics, indices.graphicsFamily)
    ensures IsLastWhere(device.queueFamilies, (f: QueueFamily) => f.presentSupport, indices.presentFamily)
  {
    var fams: Families := device.queueFamilies;
    indices := QueueFamilyIndices(None, None);
    var i := 0;
    while i < |fams|
      invariant 0 <= i <= |fams|
      invariant indices == QueueFamilies(fams[..i])
    {
      QueueFamiliesStep(fams, i);
      if HasGraphics(fams[i]) {
        indices := indices.(graphicsFamily := Some(i));
      }
      if fams[i].presentSupport {
        indices := indices.(presentFamily := Some(i));
      }
      i := i + 1;
    }
    assert fams[..i] == fams;
  }

  /** A family list where only the first family draws and only the first
      presents keeps both at index 0; adding a later graphics-capable family
      moves the graphics index to it. */
  lemma LastMatchWins()
    ensures QueueFamilies([QueueFamily(1, true)]) == QueueFamilyIndices(Some(0), Some(0))
    ensures QueueFamilies([QueueFamily(1, true), QueueFamily(3, false)]) == QueueFamilyIndices(Some(1), Some(0))
  {
    var one: Families := [QueueFamily(1, true)];
    assert one[..0] == [];
    var two: Families := [QueueFamily(1, true), QueueFamily(3, false)];
    assert two[..1] == one;
    assert HasGraphics(two[1]);
  }
}
