/**
 * ApertureViewfinder: the widget object whose fields track the state, the
 * camera, the barcode branch and the pending capture operations. Each method
 * updates the fields in place as src/aperture-viewfinder.c does and is
 * proved to carry out the matching step of CaptureSpec. GStreamer element
 * construction, pad linking and element state changes are not modelled; the
 * device manager's first camera (the source has no body for
 * aperture_device_manager_get_camera) and the camera element's PLAYING test
 * are inputs.
 */
module Viewfinders {
  import opened Wrappers
  import opened CaptureSpec
  import Pipeline
  import Devices
  import Library

  class Viewfinder {
    const devices: Devices.DeviceManager
    const tee: Pipeline.Tee
    const gtksink: Pipeline.Element

    var camera: Option<CameraRef>
    var state: ViewfinderState
    var branchZbar: Option<Pipeline.Element>
    var taskTakePicture: Option<Task>
    var recordingVideo: bool
    var taskTakeVideo: Option<Task>
    /** Every g_task_return_* made so far, in order. */
    var returned: seq<Completion>

    /** The operation fields as a value. */
    function Snapshot(): Snap
      reads this
    {
      Snap(state, camera, branchZbar, taskTakePicture, taskTakeVideo, recordingVideo, returned)
    }

    /**
     * The video sink is a branch of the tee, and so is the barcode branch
     * whenever there is one.
     */
    ghost predicate Valid()
      reads this, tee
    {
      && gtksink in tee.queues
      && (branchZbar.Some? ==> branchZbar.value in tee.queues && branchZbar.value != gtksink)
    }

    /**
     * aperture_viewfinder_init: checks that the library is initialised, makes
     * the tee with the video sink as its first branch, then chooses the state
     * from the number of cameras.
     */
    constructor (devices: Devices.DeviceManager, firstCamera: Option<CameraRef>, lib: Library.LibraryState)
      modifies lib
      ensures Valid() && fresh(tee) && fresh(gtksink)
      ensures this.devices == devices
      ensures tee.queues.Keys == {gtksink}
      ensures Snapshot() == Initial(|devices.deviceList|, firstCamera)
      ensures lib.initialized == old(lib.initialized)
      ensures lib.initWarning <==> old(lib.initWarning) || !old(lib.initialized)
    {
      var _ := lib.EnsureInitialized();
      var t := new Pipeline.Tee();
      var sink := new Pipeline.Element();
      var _ := t.AddBranch(sink);
      this.devices := devices;
      tee, gtksink := t, sink;
      camera, state, branchZbar := None, Loading, None;
      taskTakePicture, recordingVideo, taskTakeVideo := None, false, None;
      returned := [];
      new;
      if devices.NumCameras() > 0 {
        SetState(Ready);
        var _ := SetCamera(firstCamera);
      } else {
        SetState(NoCameras);
      }
    }

    /** g_task_return_*: `t` is returned with `outcome`. */
    method ReturnTask(t: Task, outcome: Outcome)
      requires Valid()
      modifies this
      ensures Valid()
      ensures Snapshot() == Return(old(Snapshot()), t, outcome)
    {
      returned := returned + [Completion(t, outcome)];
    }

    /** end_take_photo_operation. */
    method EndTakePhotoOperation()
      requires Valid()
      modifies this
      ensures Valid()
      ensures Snapshot() == EndTakePhoto(old(Snapshot()))
    {
      taskTakePicture := None;
    }

    /** end_take_video_operation. */
    method EndTakeVideoOperation()
      requires Valid()
      modifies this
      ensures Valid()
      ensures Snapshot() == EndTakeVideo(old(Snapshot()))
    {
      recordingVideo := false;
      taskTakeVideo := None;
    }

    /** cancel_current_operation. */
    method CancelCurrentOperation(err: CaptureError)
      requires Valid()
      modifies this
      ensures Valid()
      ensures Snapshot() == Cancelled(old(Snapshot()), err)
      ensures Sound(old(Snapshot())) ==> Sound(Snapshot())
    {
      ghost var before := Snapshot();
      if taskTakePicture.Some? {
        ReturnTask(taskTakePicture.value, Failed(err));
        EndTakePhotoOperation();
      } else if taskTakeVideo.Some? {
        ReturnTask(taskTakeVideo.value, Failed(err));
        EndTakeVideoOperation();
      }
      if Sound(before) {
        CancelKeepsSound(before, err);
      }
    }

    /** set_state. */
    method SetState(s: ViewfinderState)
      requires Valid()
      modifies this
      ensures Valid()
      ensures Snapshot() == WithState(old(Snapshot()), s)
      ensures Sound(old(Snapshot())) ==> Sound(Snapshot())
    {
      ghost var before := Snapshot();
      if state == s {
        return;
      }
      if s != Ready {
        var err := if s == NoCameras then CameraDisconnected else Interrupted;
        CancelCurrentOperation(err);
      }
      state := s;
      if Sound(before) {
        WithStateKeepsSound(before, s);
      }
    }

    /** on_pipeline_error; `camerabinPlaying` is the camera element's PLAYING test. */
    method OnPipelineError(element: string, message: string, camerabinPlaying: bool)
      requires Valid()
      modifies this
      ensures Valid()
      ensures Snapshot() == PipelineFailed(old(Snapshot()), element, message, camerabinPlaying)
      ensures Sound(old(Snapshot())) ==> Sound(Snapshot())
    {
      var err := PipelineFailure(PrefixedMessage(element, message));
      CancelCurrentOperation(err);
      if !camerabinPlaying {
        SetState(Error);
      }
    }

    /** on_gdk_pixbuf. */
    method OnGdkPixbuf(pixbuf: Pixbuf)
      requires Valid()
      modifies this
      ensures Valid()
      ensures Snapshot() == PixbufArrived(old(Snapshot()), pixbuf)
      ensures Sound(old(Snapshot())) ==> Sound(Snapshot())
    {
      ghost var before := Snapshot();
      if taskTakePicture.Some? {
        ReturnTask(taskTakePicture.value, Picture(pixbuf));
        EndTakePhotoOperation();
      }
      if Sound(before) {
        PixbufKeepsSound(before, pixbuf);
      }
    }

    /** on_video_done. */
    method OnVideoDone()
      requires Valid()
      modifies this
      ensures Valid()
      ensures Snapshot() == VideoDone(old(Snapshot()))
      ensures Sound(old(Snapshot())) ==> Sound(Snapshot())
    {
      ghost var before := Snapshot();
      if taskTakeVideo.Some? {
        ReturnTask(taskTakeVideo.value, Finished(true));
      }
      EndTakeVideoOperation();
      if Sound(before) {
        VideoDoneKeepsSound(before);
      }
    }

    /** aperture_viewfinder_set_camera; the error is what `error` receives. */
    method SetCamera(c: Option<CameraRef>) returns (err: Option<CaptureError>)
      requires Valid()
      modifies this
      ensures Valid()
      ensures (Snapshot(), err) == CameraSet(old(Snapshot()), c)
    {
      err := ErrorIfNotReady(Snapshot(), CurrentOperation(Snapshot(), None));
      if err.Some? {
        return;
      }
      if camera == c {
        return;
      }
      camera := c;
    }

    /** aperture_viewfinder_get_camera. */
    function GetCamera(): (c: Option<CameraRef>)
      reads this
      ensures c == Snapshot().camera
    {
      camera
    }

    /** aperture_viewfinder_get_state. */
    function GetState(): (s: ViewfinderState)
      reads this
      ensures s == Snapshot().state
    {
      state
    }

    /** aperture_viewfinder_get_detect_barcodes: whether a barcode branch is attached. */
    function GetDetectBarcodes(): (r: bool)
      reads this
      ensures r <==> Snapshot().branchZbar.Some?
    {
      branchZbar.Some?
    }

    /**
     * aperture_viewfinder_set_detect_barcodes; `zbarAvailable` is what
     * aperture_is_barcode_detection_enabled reports. Asking for detection
     * without the zbar plugin is refused; asking for the current setting
     * changes nothing; enabling attaches a new branch to the tee; disabling
     * detaches that same branch.
     */
    method SetDetectBarcodes(detect: bool, zbarAvailable: bool)
      requires Valid()
      modifies this, tee
      ensures Valid()
      ensures Snapshot() == old(Snapshot()).(branchZbar := branchZbar)
      ensures (detect && !zbarAvailable) || old(GetDetectBarcodes()) == detect ==>
                branchZbar == old(branchZbar) && tee.queues == old(tee.queues)
      ensures detect && zbarAvailable && old(branchZbar).None? ==>
                && branchZbar.Some? && fresh(branchZbar.value)
                && fresh(tee.queues[branchZbar.value])
                && tee.queues == old(tee.queues)[branchZbar.value := tee.queues[branchZbar.value]]
      ensures !detect && old(branchZbar).Some? ==>
                branchZbar.None? && tee.queues == old(tee.queues) - {old(branchZbar).value}
      ensures detect && zbarAvailable && old(branchZbar).None? ==> |tee.queues| == |old(tee.queues)| + 1
      ensures !detect && old(branchZbar).Some? ==> |tee.queues| == |old(tee.queues)| - 1
      ensures GetDetectBarcodes() == if detect && !zbarAvailable then old(GetDetectBarcodes()) else detect
    {
      if detect && !zbarAvailable {
        return;
      }
      if GetDetectBarcodes() == detect {
        return;
      }
      if detect {
        var bin := new Pipeline.Element();
        branchZbar := Some(bin);
        var _ := tee.AddBranch(bin);
      } else {
        tee.RemoveBranch(branchZbar.value);
        branchZbar := None;
      }
    }

    /** aperture_viewfinder_take_picture_async: the new task is returned to the caller. */
    method TakePictureAsync() returns (task: Task)
      requires Valid()
      modifies this
      ensures Valid() && fresh(task)
      ensures Snapshot() == PictureRequested(old(Snapshot()), task)
      ensures Sound(old(Snapshot())) ==> Sound(Snapshot())
    {
      ghost var before := Snapshot();
      task := new Task();
      assert Unused(before, task);
      var err := CurrentOperation(Snapshot(), ErrorIfNotReady(Snapshot(), None));
      if err.Some? {
        ReturnTask(task, Failed(err.value));
      } else {
        taskTakePicture := Some(task);
      }
      if Sound(before) {
        PictureRequestKeepsSound(before, task);
      }
    }

    /**
     * aperture_viewfinder_start_recording_to_file; the file name goes to the
     * file sink, which is GStreamer's business.
     */
    method StartRecordingToFile(file: string) returns (err: Option<CaptureError>)
      requires Valid()
      modifies this
      ensures Valid()
      ensures (Snapshot(), err) == RecordingStarted(old(Snapshot()))
      ensures Sound(old(Snapshot())) ==> Sound(Snapshot())
    {
      err := CurrentOperation(Snapshot(), ErrorIfNotReady(Snapshot(), None));
      if err.Some? {
        return;
      }
      recordingVideo := true;
    }

    /**
     * aperture_viewfinder_stop_recording_async as written: the errors are
     * reported on the new task but the task is installed all the same.
     */
    method StopRecordingAsync() returns (task: Task)
      requires Valid()
      modifies this
      ensures Valid() && fresh(task)
      ensures Snapshot() == StopRequestedAsWritten(old(Snapshot()), task)
    {
      task := new Task();
      if !recordingVideo {
        ReturnTask(task, Failed(NoRecordingToStop));
      }
      if taskTakeVideo.Some? {
        ReturnTask(task, Failed(OperationInProgress));
      }
      taskTakeVideo := Some(task);
    }

    /**
     * aperture_viewfinder_stop_recording_async returning after the first
     * error, as its comment intends.
     */
    method StopRecordingAsyncChecked() returns (task: Task)
      requires Valid()
      modifies this
      ensures Valid() && fresh(task)
      ensures Snapshot() == StopRequested(old(Snapshot()), task)
      ensures Sound(old(Snapshot())) ==> Sound(Snapshot())
    {
      ghost var before := Snapshot();
      task := new Task();
      assert Unused(before, task);
      if !recordingVideo {
        ReturnTask(task, Failed(NoRecordingToStop));
      } else if taskTakeVideo.Some? {
        ReturnTask(task, Failed(OperationInProgress));
      } else {
        taskTakeVideo := Some(task);
      }
      if Sound(before) {
        StopRequestKeepsSound(before, task);
      }
    }
  }
}
