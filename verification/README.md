# libaperture core, modelled in Dafny

Aperture is a GObject/GTK library that wraps GStreamer camera pipelines in a widget for taking
pictures, recording video and scanning barcodes. This project models the library's own logic and
treats GStreamer and GTK as abstract. It covers five parts:

- **Viewfinder** (`capture_spec.dfy`, `viewfinder.dfy`). This is the `ApertureViewfinder`
  operation state machine. It tracks the state (`LOADING`, `READY`, `NO_CAMERAS`, `ERROR`, ...),
  the camera, the barcode branch, the pending picture task, the pending video task and the
  recording flag.
  - The public calls are gated on "READY" and "no operation in progress".
  - Pipeline bus messages (pixbuf, video-done, pipeline error) complete or cancel the pending
    operation.
  - A GTask is a `Task` object. Every `g_task_return_*` is appended to the `returned` log.
  - GLib expects each task to be returned exactly once. `CaptureSpec.Sound` states the "at most
    once" half: no task is returned twice. `CaptureSpec.Accounted` states the "at least once"
    half: every task handed out is still pending or has been returned. Every step except the
    as-written stop keeps both.
  - `CaptureSpec` gives each step as a function on a value `Snap` of the viewfinder's fields and
    proves the properties there. The `Viewfinder` class updates its fields in place, and each of
    its methods is proved to carry out the matching step.
- **Device manager** (`device_manager.dfy`). It holds the camera list:
  - filled from the device monitor at start;
  - appended to on device-added;
  - find-and-remove on device-removed;
  - the camera count;
  - the wrap-around next-camera rule;
  - the index guard of the video-source lookup;
  - the process-wide shared instance.
- **Pipeline tee** (`pipeline_tee.dfy`). It holds the branch-to-queue table that `add_branch` and
  `remove_branch` update.
- **Library initialisation** (`utils.dfy`). Two static flags, `initialized` and `init_warning`,
  form a small idempotent state machine.
- **Barcode result** (`barcode_result.dfy`). This is a two-string record with a constructor and a
  copy.

Inputs to the model:

- Whether GStreamer is already initialised.
- Whether the zbar plugin is available.
- Whether the camera element is PLAYING.
- The devices the monitor reports.
- The device manager's first camera. `aperture_device_manager_get_camera` has no body in the
  source.
- The contents of bus messages (device, pixbuf, element name, error message).

Where the code and its headers or tests disagree, the model follows the `.c` code:

- `src/aperture-viewfinder.h:58-60` declares an int-based camera API.
- `src/aperture-device-manager.h:43-46` declares a different `next_camera`.
- `tests/test-viewfinder.c:44-51` expects the viewfinder to follow camera hot-plugging. No code in
  `src/aperture-viewfinder.c` does this.

## Model

| member | source | states |
|---|---|---|
| `Barcodes.New` | src/aperture-barcode-result.c:52-65 | NULL comes back iff the code type or the data is NULL; otherwise the record holds both strings and a NULL private pointer |
| `Barcodes.Copy` | src/aperture-barcode-result.c:52-87 | NULL comes back iff the argument is NULL or its code type or data is NULL (the guards of `new`, which `copy` calls); otherwise the copy has the original's code type and data and a NULL private pointer |
| `Barcodes.CopyOfNewIsEqual` | src/aperture-barcode-result.c:52-87 | a copy of any record the library creates equals that record |
| `Barcodes.CopyIsIdempotent` | src/aperture-barcode-result.c:78-87 | copying a copy gives the same record |
| `Library.LibraryState.constructor` | src/aperture-utils.c:25-26 | both flags start FALSE |
| `Library.LibraryState.Init` | src/aperture-utils.c:42-53 | afterwards the library is initialised; gst_init is called iff the library was not initialised and GStreamer was not; a repeated call changes nothing |
| `Library.LibraryState.IsInitialized` | src/aperture-utils.c:65-68 | reports the `initialized` flag |
| `Library.LibraryState.EnsureInitialized` | src/aperture-utils.c:79-85 | warns iff the library is uninitialised and has not warned before; afterwards the warning flag records it |
| `Library.InitThenQuery` | tests/test-main.c:27-32 | a new library is uninitialised, is initialised after `Init`, and a second `Init` does not call gst_init |
| `Library.WarnAtMostOnce` | src/aperture-utils.c:79-85 | the warning is emitted on the first use only, and never after initialisation |
| `Pipeline.Tee.constructor` | src/pipeline/aperture-pipeline-tee.c:63-68 | a new tee has an empty branch table |
| `Pipeline.Tee.AddBranch` | src/pipeline/aperture-pipeline-tee.c:108-129 | the branch is mapped to a newly made queue; the other entries are kept; a new branch grows the table by one |
| `Pipeline.Tee.RemoveBranch` | src/pipeline/aperture-pipeline-tee.c:140-165 | the branch's entry is gone and every other branch keeps its queue; a known branch shrinks the table by one; an unknown branch leaves the table unchanged |
| `Pipeline.AddThenRemove` | src/pipeline/aperture-pipeline-tee.c:118-164 | adding a new branch and then removing it restores the table |
| `Devices.FindDevice` | src/aperture-device-manager.c:75 | the first position holding the device, or nothing iff the list does not hold it |
| `Devices.DeviceManager.constructor` | src/aperture-device-manager.c:202-207 | the list holds the monitor's devices in the order reported |
| `Devices.DeviceManager.OnDeviceAdded` | src/aperture-device-manager.c:60-70 | the device is appended, the count grows by one and the reported index is the new last position |
| `Devices.DeviceManager.OnDeviceRemoved` | src/aperture-device-manager.c:71-82 | the first entry of the device is deleted and the rest keep their order; the reported index is its old position; an unknown device leaves the list unchanged and reports -1 |
| `Devices.DeviceManager.NumCameras` | src/aperture-device-manager.c:251-256 | the number of cameras is the length of the list |
| `Devices.AddThenRemove` | src/aperture-device-manager.c:64-77 | adding an unknown device and removing it restores the list |
| `Devices.NextCameraAsWritten` | src/aperture-device-manager.c:271-290 | the code with C `int` arithmetic: 0 for a negative index, -1 when there are no cameras |
| `Devices.NextCameraAsWrittenOverflows` | src/aperture-device-manager.c:283-289 | with one camera, the camera after INT_MAX comes out as INT_MIN |
| `Devices.NextCamera` | src/aperture-device-manager.c:260-290 | 0 for a negative index; otherwise -1 iff there are no cameras; else idx + 1 when idx + 1 < n and 0 (wrapping to the first camera) when idx + 1 >= n, so always an index in [0, n) |
| `Devices.NextCameraAgreesBelowIntMax` | src/aperture-device-manager.c:283-289 | below INT_MAX the code as written gives the corrected rule's answer |
| `Devices.NextCameraWithTwoCameras` | tests/test-device-manager.c:161-171 | with two cameras, both the code as written and the corrected rule give: 0 gives 1, 1 gives 0, 2 gives 0, 102 gives 0 |
| `Devices.AdvanceAdds` | src/aperture-device-manager.c:283-289 | stepping a times and then b times is stepping a+b times |
| `Devices.AdvanceCounts` | src/aperture-device-manager.c:283-289 | below the last camera, each step goes to the next index |
| `Devices.CyclesThroughAllCameras` | src/aperture-device-manager.c:259-269 | stepping from the first camera reaches every camera, and n steps from any camera return to it |
| `Devices.DeviceManager.VideoSourceAsWritten` | src/aperture-device-manager.c:303-312 | the guard as written refuses exactly idx < 0 or idx > n; every index in [0, n) gives the device at idx; idx == n passes the guard and finds no item |
| `Devices.DeviceManager.GuardAdmitsEnd` | src/aperture-device-manager.c:308 | index n passes the guard as written although the list has no item there |
| `Devices.DeviceManager.GuardsDifferOnlyAtEnd` | src/aperture-device-manager.c:308 | the guard as written and the corrected guard give the same answer at every index except n, where they differ |
| `Devices.DeviceManager.VideoSource` | src/aperture-device-manager.c:303-312 | with the corrected guard, a device comes back iff 0 <= idx < n, and it is the device at idx |
| `Devices.InstanceSlot.constructor` | src/aperture-device-manager.c:228 | the static instance pointer starts NULL, with no references |
| `Devices.InstanceSlot.GetInstance` | src/aperture-device-manager.c:226-238 | the live manager is handed out again with one more reference; when none is alive, a new manager filled from the monitor |
| `Devices.InstanceSlot.Unref` | src/aperture-device-manager.c:232 | dropping the last reference clears the weak pointer |
| `Devices.SharedWhileAlive` | tests/test-device-manager.c:31-62 | two requests while a manager is alive give the same manager; after both are released the next request gives a different one |
| `CaptureSpec.CurrentOperation` | src/aperture-viewfinder.c:275-294 | an existing error is kept; otherwise OPERATION_IN_PROGRESS is reported iff a picture task, a video task or a recording is under way |
| `CaptureSpec.ErrorIfNotReady` | src/aperture-viewfinder.c:297-311 | an existing error is kept; otherwise NOT_READY is reported iff the state is not READY |
| `CaptureSpec.GateOrder` | src/aperture-viewfinder.c:685-687 | picture and recording check NOT_READY first; the camera switch checks OPERATION_IN_PROGRESS first |
| `CaptureSpec.CancelFinishesOneOperation` | src/aperture-viewfinder.c:137-165 | if a picture task is pending, it is failed and cleared; otherwise a pending video task is failed and both it and the recording flag are cleared; nothing else changes |
| `CaptureSpec.CancelKeepsSound` | src/aperture-viewfinder.c:155-165 | cancelling keeps every task returned at most once |
| `CaptureSpec.SameStateIsNoop` | src/aperture-viewfinder.c:173-175 | setting the current state changes nothing and cancels nothing |
| `CaptureSpec.NewStateCancels` | src/aperture-viewfinder.c:177-191 | a new state other than READY first cancels with CAMERA_DISCONNECTED (NO_CAMERAS) or INTERRUPTED; READY changes only the state |
| `CaptureSpec.WithStateKeepsSound` | src/aperture-viewfinder.c:168-193 | changing state keeps every task returned at most once |
| `CaptureSpec.PipelineErrorEndsOperations` | src/aperture-viewfinder.c:314-330 | after a pipeline error no picture task is pending; if the camera element is not PLAYING the state is ERROR, and when the viewfinder was not already in ERROR no video task remains either; task soundness is kept |
| `CaptureSpec.CancelLosesNoTask` | src/aperture-viewfinder.c:155-165 | cancelling drops no task handed out: the task it clears has been returned |
| `CaptureSpec.WithStateLosesNoTask` | src/aperture-viewfinder.c:168-193 | changing state drops no task |
| `CaptureSpec.PipelineErrorLosesNoTask` | src/aperture-viewfinder.c:314-330 | a pipeline error drops no task |
| `CaptureSpec.PixbufLosesNoTask` | src/aperture-viewfinder.c:340-354 | delivering a pixbuf drops no task |
| `CaptureSpec.VideoDoneLosesNoTask` | src/aperture-viewfinder.c:357-362 | video-done drops no task |
| `CaptureSpec.RecordingWithoutStopStaysFlagged` | src/aperture-viewfinder.c:155-193 | a recording with no stop task survives a pipeline error and the move to NO_CAMERAS: cancelling clears the recording flag only together with a video task, so the viewfinder stays busy |
| `CaptureSpec.PixbufKeepsSound` | src/aperture-viewfinder.c:340-354 | delivering a pixbuf keeps every task returned at most once |
| `CaptureSpec.VideoDoneKeepsSound` | src/aperture-viewfinder.c:357-362 | video-done keeps every task returned at most once |
| `CaptureSpec.CameraSetEffect` | src/aperture-viewfinder.c:685-696 | the camera switch fails with OPERATION_IN_PROGRESS, else NOT_READY, and changes nothing then; otherwise only the camera becomes the argument |
| `CaptureSpec.PictureRequestEffect` | src/aperture-viewfinder.c:840-848 | a refused picture leaves every field and only returns the new task with NOT_READY or OPERATION_IN_PROGRESS; an accepted one installs the task |
| `CaptureSpec.PictureRequestLosesNoTask` | src/aperture-viewfinder.c:837-848 | the new picture task is returned at once or left pending, and no earlier task is dropped |
| `CaptureSpec.PictureRequestKeepsSound` | src/aperture-viewfinder.c:837-848 | taking a picture with a new task keeps every task returned at most once |
| `CaptureSpec.RecordingStartEffect` | src/aperture-viewfinder.c:901-908 | starting a recording fails with NOT_READY, else OPERATION_IN_PROGRESS, leaving every field; otherwise only the recording flag is set |
| `CaptureSpec.StopWithoutRecordingReturnsTwice` | src/aperture-viewfinder.c:952-965 | stopping when nothing records installs a task already returned, and video-done calls g_task_return_boolean on it again (a GLib precondition violation) |
| `CaptureSpec.IdleStopBlocksOperations` | src/aperture-viewfinder.c:952-965 | after a stop on an idle READY viewfinder the already-failed task stays pending, so picture, recording and camera switch are all refused with OPERATION_IN_PROGRESS |
| `CaptureSpec.StopWhileStoppingDropsTask` | src/aperture-viewfinder.c:958-965 | a second stop replaces the pending video task, which is never returned |
| `CaptureSpec.StopWhileStoppingLosesTask` | src/aperture-viewfinder.c:958-965 | after a second stop as written, the earlier video task is neither pending nor returned |
| `CaptureSpec.StopRequestedAgreesWhenRecording` | src/aperture-viewfinder.c:952-965 | while recording with no stop pending, the code as written and the corrected stop agree |
| `CaptureSpec.StopRequestKeepsSound` | src/aperture-viewfinder.c:950-965 | the corrected stop keeps every task returned at most once |
| `CaptureSpec.StopRequestLosesNoTask` | src/aperture-viewfinder.c:950-965 | with the corrected stop, the new task is returned at once or left pending, and no earlier task is dropped |
| `CaptureSpec.PictureRoundTrip` | src/aperture-viewfinder.c:840-854 | picture request then pixbuf returns the task with that pixbuf and restores every other field |
| `CaptureSpec.RecordingRoundTrip` | src/aperture-viewfinder.c:901-965 | start, stop and video-done return the stop task with TRUE and restore every other field |
| `CaptureSpec.PictureBlocksOtherOperations` | tests/test-viewfinder.c:148-160 | while a picture is pending, camera switch, recording and a second picture are refused with OPERATION_IN_PROGRESS |
| `CaptureSpec.InitialState` | src/aperture-viewfinder.c:633-642 | a new viewfinder is READY with the first camera if there are cameras, otherwise NO_CAMERAS with no camera; nothing is pending |
| `Viewfinders.Viewfinder.constructor` | src/aperture-viewfinder.c:603-643 | checks initialisation, makes a tee whose only branch is the video sink, and starts in `Initial` |
| `Viewfinders.Viewfinder.EndTakePhotoOperation` | src/aperture-viewfinder.c:137-141 | clears the picture task only |
| `Viewfinders.Viewfinder.EndTakeVideoOperation` | src/aperture-viewfinder.c:144-149 | clears the recording flag and the video task only |
| `Viewfinders.Viewfinder.CancelCurrentOperation` | src/aperture-viewfinder.c:155-165 | carries out `Cancelled` and keeps task soundness |
| `Viewfinders.Viewfinder.SetState` | src/aperture-viewfinder.c:168-193 | carries out `WithState` and keeps task soundness |
| `Viewfinders.Viewfinder.OnPipelineError` | src/aperture-viewfinder.c:314-330 | carries out `PipelineFailed` and keeps task soundness |
| `Viewfinders.Viewfinder.OnGdkPixbuf` | src/aperture-viewfinder.c:340-354 | carries out `PixbufArrived` and keeps task soundness |
| `Viewfinders.Viewfinder.OnVideoDone` | src/aperture-viewfinder.c:357-362 | carries out `VideoDone` and keeps task soundness |
| `Viewfinders.Viewfinder.SetCamera` | src/aperture-viewfinder.c:675-713 | carries out `CameraSet`: the reported error and the new camera |
| `Viewfinders.Viewfinder.GetCamera` | src/aperture-viewfinder.c:726-731 | reports the current camera |
| `Viewfinders.Viewfinder.GetState` | src/aperture-viewfinder.c:743-748 | reports the current state |
| `Viewfinders.Viewfinder.GetDetectBarcodes` | src/aperture-viewfinder.c:797-802 | true iff a barcode branch is attached |
| `Viewfinders.Viewfinder.SetDetectBarcodes` | src/aperture-viewfinder.c:764-784 | refused without zbar; the current value changes nothing; enabling attaches one new branch to the tee, which grows by one; disabling removes that same branch, which the tee holds, so the tee shrinks by one; other fields unchanged |
| `Viewfinders.Viewfinder.TakePictureAsync` | src/aperture-viewfinder.c:824-852 | a new task; carries out `PictureRequested` and keeps task soundness |
| `Viewfinders.Viewfinder.StartRecordingToFile` | src/aperture-viewfinder.c:892-921 | carries out `RecordingStarted`: the reported error and the recording flag |
| `Viewfinders.Viewfinder.StopRecordingAsync` | src/aperture-viewfinder.c:935-968 | a new task; carries out `CaptureSpec.StopRequestedAsWritten`: errors are reported on the task and it is installed regardless |
| `Viewfinders.Viewfinder.StopRecordingAsyncChecked` | src/aperture-viewfinder.c:950-965 | the stop returning after its error: carries out `StopRequested` and keeps task soundness |

## Left out

- GStreamer element construction and linking are not modelled. This covers `create_element`,
  `create_zbar_bin`, `create_photo_capture_bin`, pipeline assembly, realize/unrealize, pads,
  element states, and the properties and signals set on the camera element and file sink. These
  are calls into GStreamer. The zbar bin and the queues are fresh `Element` objects.
- The ERROR state that `create_element` sets when an element is missing is not modelled. This is
  part of the element construction above. In the code, the state choice at
  src/aperture-viewfinder.c:636-642 would overwrite it.
- `on_gdk_pixbuf_preroll` and the valve updates are not modelled. They only set a property on the
  capture bin's valve, and that bin is never created in this snapshot (its creation is commented
  out).
- `on_barcode_detected` is a signal emission. `aperture_barcode_type_from_string` has no body in
  the source, so it is not part of this model.
- The `on_bus_message_async` dispatch is not modelled. Each message kind is its own method.
- GObject machinery is not modelled: properties, notify, signals, `finalize`, and the
  `*_finish` calls that read a task's recorded outcome back.
- Error message texts are not modelled: only error codes are. The exception is the element-name
  prefix of pipeline errors.
- `aperture_is_barcode_detection_enabled` is an input. It is a plugin-registry lookup.
- `aperture_device_manager_get_camera` and the camera's source index are not part of this model.
  The first camera is an input.
- Reference counting is modelled only for the shared device manager.
- `aperture_barcode_result_free` is deallocation and has no effect on the model.
- The thin wrappers (`src/aperture-camera.c`, `src/devices/aperture-device.c`), the GTK widget,
  the demo and example programs, and the test scaffolding are left out.
- `Devices.NextCamera` and `Devices.NextCameraAsWritten` take the camera count rather than the
  manager. The C function depends on the manager only through `get_num_cameras`.
- `Devices.DeviceManager.NumCameras` does not model the unsigned-to-`int` conversion. That
  conversion would matter only beyond INT_MAX devices.
- `Devices.DeviceManager.VideoSource` returns the device rather than the element that GStreamer
  creates from it.
- `Viewfinders.Viewfinder.StartRecordingToFile` does not record the file name. The name goes only
  to the file sink, which is GStreamer's. For the same reason a NULL file name cannot be given, so
  the `g_return_if_fail (file != NULL)` early return at src/aperture-viewfinder.c:899 is not
  modelled.
- `g_return_if_fail` guards are modelled as the early return they perform. This covers the tee's
  membership check, the zbar availability check, the NULL checks of the barcode record and the
  negative-index check of `next_camera`. `Viewfinders.Viewfinder.Valid` keeps the barcode branch
  in the tee, so disabling barcodes always removes a real branch.

## Findings

| source | as written | input that shows it | evidently intended | confidence | as-written member | corrected member |
|---|---|---|---|---|---|---|
| src/aperture-viewfinder.c:952-965 | the errors are returned on the new task, but the function does not return, so the task is still installed as the pending video task | `stop_recording_async` while nothing records; the later video-done calls g_task_return_boolean on the same task again (a GLib precondition violation), and until then every picture, recording and camera switch fails with OPERATION_IN_PROGRESS | return right after reporting the error, as the comment at line 950 says | not executed; high | `CaptureSpec.StopWithoutRecordingReturnsTwice` | `CaptureSpec.StopRequestKeepsSound` |
| src/aperture-device-manager.c:308 | the guard accepts `idx <= n` | `idx == n`: the guard passes and the list has no item at that index | `idx < n` | not executed; high | `Devices.DeviceManager.GuardAdmitsEnd` | `Devices.DeviceManager.VideoSource` |
| src/aperture-device-manager.c:283-289 | `idx ++` runs before the wrap test | `idx == INT_MAX` with one camera gives INT_MIN, assuming two's-complement wrap (signed overflow is undefined in C) | 0, the first camera | not executed; medium | `Devices.NextCameraAsWrittenOverflows` | `Devices.NextCamera` |
