/**
 * ApertureDeviceManager: the list of video-source devices that GStreamer's
 * device monitor reports, kept up to date from the monitor's bus, and the
 * process-wide instance that every caller shares. Devices are opaque
 * references; the monitor's initial device list and the devices carried by
 * bus messages are inputs.
 */
module Devices {
  import opened Wrappers

  /** A GstDevice reference; the list store compares devices by pointer. */
  datatype Device = Device(id: nat)

  /** A C `int`. */
  type Int32 = x: int | -0x8000_0000 <= x < 0x8000_0000

  const IntMax: Int32 := 0x7fff_ffff

  /** Two's-complement wrap-around of an integer into a C `int`. */
  function Wrap32(x: int): (r: Int32)
    ensures -0x8000_0000 <= x < 0x8000_0000 ==> r == x
  {
    (x + 0x8000_0000) % 0x1_0000_0000 - 0x8000_0000
  }

  /**
   * g_list_store_find: the first position at which `device` is stored, or
   * nothing when the list does not hold it.
   */
  function FindDevice(list: seq<Device>, device: Device): (r: Option<nat>)
    ensures r.None? <==> device !in list
    ensures r.Some? ==> r.value < |list| && list[r.value] == device && device !in list[..r.value]
  {
    if list == [] then None
    else if list[0] == device then Some(0)
    else match FindDevice(list[1..], device)
      case None => None
      case Some(i) =>
        assert list[..i + 1] == [list[0]] + list[1..][..i];
        Some(i + 1)
  }

  /** Why aperture_device_manager_get_video_source gave no element. */
  datatype SourceError =
    | Refused  // the index guard rejected the index
    | NoItem   // the guard let the index through but the list has no item there

  /**
   * aperture_device_manager_next_camera with its `int` arithmetic as
   * written: a negative index is refused (0 is returned), -1 means "no
   * cameras", and `idx + 1` wraps around at INT_MAX.
   */
  function NextCameraAsWritten(numCameras: Int32, idx: Int32): (r: Int32)
    requires numCameras >= 0
    ensures idx < 0 ==> r == 0
    ensures idx >= 0 && numCameras == 0 ==> r == -1
  {
    if idx < 0 then 0
    else if numCameras == 0 then -1
    else
      var next := Wrap32(idx + 1);
      if next >= numCameras then 0 else next
  }

  /** At INT_MAX the increment wraps and the "next camera" is INT_MIN. */
  lemma NextCameraAsWrittenOverflows()
    ensures NextCameraAsWritten(1, IntMax) == -0x8000_0000
  {
  }

  /**
   * The next camera index after `idx`, wrapping around to the first camera:
   * the rule of aperture_device_manager_next_camera with the wrap test done
   * before the increment, so that no index overflows.
   */
  function NextCamera(numCameras: nat, idx: int): (r: int)
    ensures idx < 0 ==> r == 0
    ensures idx >= 0 ==> (r == -1 <==> numCameras == 0)
    ensures idx >= 0 && numCameras > 0 ==> 0 <= r < numCameras
    ensures 0 <= idx && idx + 1 < numCameras ==> r == idx + 1
    ensures 0 <= idx && 0 < numCameras <= idx + 1 ==> r == 0
  {
    if idx < 0 then 0
    else if numCameras == 0 then -1
    else if idx >= numCameras - 1 then 0
    else idx + 1
  }

  /** Below INT_MAX the corrected rule and the code as written agree. */
  lemma NextCameraAgreesBelowIntMax(numCameras: Int32, idx: Int32)
    requires numCameras >= 0 && idx < IntMax
    ensures NextCamera(numCameras, idx) == NextCameraAsWritten(numCameras, idx)
  {
  }

  /**
   * The values pinned by the next-camera test with two cameras, for the code
   * as written and for the corrected rule.
   */
  lemma NextCameraWithTwoCameras()
    ensures NextCameraAsWritten(2, 0) == 1 && NextCamera(2, 0) == 1
    ensures NextCameraAsWritten(2, 1) == 0 && NextCamera(2, 1) == 0
    ensures NextCameraAsWritten(2, 2) == 0 && NextCamera(2, 2) == 0
    ensures NextCameraAsWritten(2, 102) == 0 && NextCamera(2, 102) == 0
  {
  }

  /** The camera reached from `idx` by asking for the next camera `k` times. */
  function Advance(numCameras: nat, idx: int, k: nat): int
    decreases k
  {
    if k == 0 then idx else Advance(numCameras, NextCamera(numCameras, idx), k - 1)
  }

  /** Advancing `a` then `b` times is advancing `a + b` times. */
  lemma {:induction false} AdvanceAdds(numCameras: nat, idx: int, a: nat, b: nat)
    ensures Advance(numCameras, Advance(numCameras, idx, a), b) == Advance(numCameras, idx, a + b)
    decreases a
  {
    if a > 0 {
      AdvanceAdds(numCameras, NextCamera(numCameras, idx), a - 1, b);
    }
  }

  /** Below the last camera, advancing steps through the indices one by one. */
  lemma {:induction false} AdvanceCounts(numCameras: nat, idx: nat, k: nat)
    requires idx + k < numCameras
    ensures Advance(numCameras, idx, k) == idx + k
    decreases k
  {
    if k > 0 {
      AdvanceCounts(numCameras, idx + 1, k - 1);
    }
  }

  /**
   * Repeatedly asking for the next camera visits every camera, starting
   * from the first, and after `numCameras` steps is back where it started.
   */
  lemma CyclesThroughAllCameras(numCameras: nat, idx: nat)
    requires idx < numCameras
    ensures Advance(numCameras, 0, idx) == idx
    ensures Advance(numCameras, idx, numCameras) == idx
  {
    AdvanceCounts(numCameras, 0, idx);
    var last := numCameras - 1 - idx;
    AdvanceCounts(numCameras, idx, last);
    AdvanceAdds(numCameras, idx, last, 1);
    AdvanceAdds(numCameras, idx, last + 1, idx);
  }

  class DeviceManager {
    /** `device_list`: the known video sources, in discovery order. */
    var deviceList: seq<Device>

    /**
     * aperture_device_manager_init: the list starts empty and receives the
     * monitor's current devices one by one, in the order reported.
     */
    constructor (monitorDevices: seq<Device>)
      ensures deviceList == monitorDevices
    {
      deviceList := [];
      new;
      var i := 0;
      while i < |monitorDevices|
        invariant 0 <= i <= |monitorDevices|
        invariant deviceList == monitorDevices[..i]
      {
        deviceList := deviceList + [monitorDevices[i]];
        i := i + 1;
      }
    }

    /**
     * on_bus_message, DEVICE_ADDED: the device goes to the end of the list;
     * the index reported with ::camera-added is its position.
     */
    method OnDeviceAdded(device: Device) returns (index: int)
      modifies this
      ensures deviceList == old(deviceList) + [device]
      ensures |deviceList| == |old(deviceList)| + 1
      ensures index == |old(deviceList)| && deviceList[index] == device
    {
      deviceList := deviceList + [device];
      index := |deviceList| - 1;
    }

    /**
     * on_bus_message, DEVICE_REMOVED: the first entry holding the device is
     * deleted and the others keep their order; the index reported with
     * ::camera-removed is the old position, or -1 (the unsigned initial
     * value read back as an `int`) for an unknown device.
     */
    method OnDeviceRemoved(device: Device) returns (index: int)
      modifies this
      ensures device !in old(deviceList) ==> deviceList == old(deviceList) && index == -1
      ensures device in old(deviceList) ==>
        && 0 <= index < |old(deviceList)|
        && old(deviceList)[index] == device
        && device !in old(deviceList)[..index]
        && deviceList == old(deviceList)[..index] + old(deviceList)[index + 1..]
      ensures multiset(deviceList) == multiset(old(deviceList)) - multiset{device}
    {
      index := -1;
      var found := FindDevice(deviceList, device);
      if found.Some? {
        index := found.value;
        assert deviceList == deviceList[..index] + [device] + deviceList[index + 1..];
        deviceList := deviceList[..index] + deviceList[index + 1..];
      }
    }

    /** aperture_device_manager_get_num_cameras: the length of the list. */
    function NumCameras(): (n: nat)
      reads this
      ensures n == |deviceList|
    {
      |deviceList|
    }

    /**
     * aperture_device_manager_get_video_source with its index guard as
     * written (`idx <= n`): the device at `idx`, whose element GStreamer
     * then creates.
     */
    function VideoSourceAsWritten(idx: int): (r: Result<Device, SourceError>)
      reads this
      ensures r.Success? ==> 0 <= idx < |deviceList| && r.value == deviceList[idx]
      ensures r == Failure(Refused) <==> idx < 0 || idx > |deviceList|
      ensures 0 <= idx < |deviceList| ==> r == Success(deviceList[idx])
      ensures r == Failure(NoItem) <==> idx == |deviceList|
    {
      if !(idx >= 0 && idx <= NumCameras()) then Failure(Refused)
      else if idx < |deviceList| then Success(deviceList[idx])
      else Failure(NoItem)
    }

    /** The guard as written lets the one-past-the-end index through. */
    lemma GuardAdmitsEnd()
      ensures VideoSourceAsWritten(|deviceList|) == Failure(NoItem)
    {
    }

    /**
     * aperture_device_manager_get_video_source with the guard `idx < n`: it
     * accepts exactly the positions of the list.
     */
    function VideoSource(idx: int): (r: Result<Device, SourceError>)
      reads this
      ensures r.Success? <==> 0 <= idx < |deviceList|
      ensures r.Success? ==> r.value == deviceList[idx]
      ensures r.Failure? ==> r.error == Refused
    {
      if !(idx >= 0 && idx < NumCameras()) then Failure(Refused)
      else Success(deviceList[idx])
    }

    /** The guard as written and the corrected guard differ at the end index only. */
    lemma GuardsDifferOnlyAtEnd(idx: int)
      ensures idx != |deviceList| ==> VideoSourceAsWritten(idx) == VideoSource(idx)
      ensures VideoSourceAsWritten(|deviceList|) != VideoSource(|deviceList|)
    {
    }
  }

  /** Adding an unknown device and then removing it restores the list. */
  method AddThenRemove(manager: DeviceManager, device: Device)
    requires device !in manager.deviceList
    modifies manager
    ensures manager.deviceList == old(manager.deviceList)
  {
    var added := manager.OnDeviceAdded(device);
    var removed := manager.OnDeviceRemoved(device);
    assert removed == added;
  }

  /**
   * The static `instance` of aperture_device_manager_get_instance and the
   * reference count of the manager it points to. The weak pointer resets
   * `instance` to NULL when the last reference is dropped.
   */
  class InstanceSlot {
    var instance: DeviceManager?
    var refs: nat

    ghost predicate Valid()
      reads this
    {
      instance == null <==> refs == 0
    }

    constructor ()
      ensures Valid() && instance == null
    {
      instance, refs := null, 0;
    }

    /**
     * aperture_device_manager_get_instance: the live manager with one more
     * reference, or a new manager filled from the monitor when none is alive.
     */
    method GetInstance(monitorDevices: seq<Device>) returns (manager: DeviceManager)
      requires Valid()
      modifies this
      ensures Valid() && instance == manager
      ensures old(instance) != null ==> manager == old(instance) && refs == old(refs) + 1
      ensures old(instance) == null ==> fresh(manager) && manager.deviceList == monitorDevices && refs == 1
    {
      if instance == null {
        manager := new DeviceManager(monitorDevices);
        instance, refs := manager, 1;
      } else {
        manager := instance;
        refs := refs + 1;
      }
    }

    /** g_object_unref on the shared manager; the last one clears the slot. */
    method Unref()
      requires Valid() && instance != null
      modifies this
      ensures Valid() && refs == old(refs) - 1
      ensures instance == if refs == 0 then null else old(instance)
    {
      refs := refs - 1;
      if refs == 0 {
        instance := null;
      }
    }
  }

  /**
   * Two requests while a manager is alive give the same manager; once every
   * reference is dropped, the next request gives a different one.
   */
  method SharedWhileAlive(monitorDevices: seq<Device>) returns (first: DeviceManager, second: DeviceManager, third: DeviceManager)
    ensures first == second && third != first
  {
    var slot := new InstanceSlot();
    first := slot.GetInstance(monitorDevices);
    second := slot.GetInstance(monitorDevices);
    slot.Unref();
    slot.Unref();
    third := slot.GetInstance(monitorDevices);
  }
}
