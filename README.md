# ODIN capture media: a verified model

This project models `UOdinCaptureMedia` from the ODIN Unreal SDK. This object
binds an Unreal audio capture device (`UAudioCapture`) to an outbound native
ODIN audio stream. It creates the stream in the device's format. It pushes each
captured buffer into the stream from the device's generator callback. When the
device's format changes, it tears the stream down and, on the game thread,
rebuilds a new media object on the same device and adds it to the connected
room.

The model is split into four modules:

- `OdinNative` (`native.dfy`) is the native ODIN library. Stream handles are
  created, fed, destroyed and added to rooms through the class `OdinSdk`. Every
  native call is appended to a ghost trace. Destroy, push and add-media
  require a live handle, so the verifier checks the "never destroyed twice,
  never used after destroy" rule at every call site. The lemmas
  `DestroyedStaysDead` and `NoUseAfterDestroy` prove that any trace obeying
  this rule never touches a destroyed stream again. The environment fixes the
  native layer's answers when it sets up the library: whether a stream can be
  allocated, and the status that destroy or add-media returns.
- `CaptureCallback` (`callback.dfy`) covers the per-buffer decision of the
  generator callback (drop, start recovery, push, or nothing to push) as pure
  functions. It also defines a replay of any run of callbacks. The lemmas about
  that replay show four things: at most one recovery is queued; every later
  buffer is dropped; nothing is pushed while the reset flag is up; and the
  flag and queue record exactly whether a recovery happened.
- `OdinCaptureMedia` (`capture_media.dfy`) holds three classes: `AudioCapture`
  (the device, with its registered delegates), `OdinRoom` (the room, with its
  bound media) and `CaptureMedia`. `CaptureMedia` has the fields of
  `UOdinCaptureMedia` and one method per operation. Each method states the
  new value of every field of the binding it may change, the exact native
  calls it makes, and what it does to the device's delegates and the room's
  bound set. Of the media that a recovery builds, the stream handle and the
  delegate handle are new values the native layer and the device choose.
  The contract therefore states what constrains them rather than the values
  themselves: the stream handle is 0 exactly when allocation fails, and
  otherwise was never handed out before; the delegate handle is
  non-empty and held by no other delegate exactly when the device passes
  the low-level check, and is 0 otherwise. The callback method is
  tied to the pure decision in `CaptureCallback`. `Valid()` is the object
  invariant: a non-zero handle is live and was created with the negotiated
  format.
- `CaptureScenarios` (`scenarios.dfy`) holds clients that run whole episodes,
  each proved from the contracts alone: a device switch, a room that is gone
  when recovery runs, a room that rejects the new stream, a repeated reset, a
  stream the native layer could not allocate, a rebuilt binding that
  recovers again after a second device change, a rebuilt binding that
  pushes the next buffer into its new stream, and a second binding on the
  same device whose delegate a recovery leaves in place.

Modelling choices:

- The `AsyncTask` closure queued at line 121 becomes the counter
  `pendingRecoveries`. `HandleInputDeviceChanges` raises it and
  `RunPendingRecovery` runs one queued task.
- The generator callback is the method `OnAudio`. The environment may call it
  at any time, including through a delegate left registered after `Reset`.
- The weak room pointer is an `OdinRoom?` together with the room's `alive`
  flag. `IsValid()` means "not null and alive".
- `IsValidLowLevel` on the capture is the boolean field `validLowLevel`.
- `Odin_CreateMedia(capture)` is the method `CreateMedia`: "a new
  `CaptureMedia` on which `SetAudioCapture(capture)` was run". That
  function's source (in `OdinFunctionLibrary`) is not part of this model.
- `UOdinRoom::BindCaptureMedia` and `UnbindCaptureMedia` are taken to record
  the room on the media through `SetRoom` and `RemoveRoom`, so media bound by
  a recovery has a connected room and can recover again
  (`RecoversTwice`). `UOdinRoom`'s source is not part of this model; this is
  what those two methods of the media exist for.
- The casts `(uint32_t)` and `(uint8_t)` on line 51 are written out in
  `NativeConfig` as reductions modulo 2^32 and 2^8.
- `odin_is_error` is taken as "status is not zero".
- The class header is not part of this model. A new object has every field
  zero, null or false, which is what Unreal's zero-initialisation of a
  `UObject` gives.

The model keeps these quirks of the code:

- `ResetOdinStream` returns at line 104 when it destroyed a stream. It lowers
  the reset flag only when there was no stream.
- Consequently, after a recovery the old binding keeps its flag raised only if
  it owned a stream. If its stream could not be allocated, the flag is lowered
  (`UnallocatedStream`).
- `Reset` nulls the capture but does not unregister the generator delegate.
  It also destroys the stream.
- `SetAudioCapture` does not unregister a delegate registered by an earlier
  call. It ignores the destroy status.
- When the capture is null or fails the low-level check, `SetAudioCapture`
  keeps the old `audio_generator_handle_`.

## Model

| member | source | states |
|---|---|---|
| `OdinNative.NativeConfig` | Source/Odin/Private/OdinCaptureMedia.cpp:50-51 | The stream config is the negotiated rate reduced to 32 unsigned bits and the channel count reduced to 8 unsigned bits: in range, congruent to the inputs, and equal to them when they already fit. |
| `OdinNative.IsError` | Source/Odin/Private/OdinCaptureMedia.cpp:144 | `odin_is_error`: a status is an error exactly when it is not zero. |
| `OdinNative.LiveWereCreated` | Source/Odin/Private/OdinCaptureMedia.cpp:50-51 | A handle can only be live if a create handed it out, and handle 0 never is handed out. |
| `OdinNative.DestroyedStaysDead` | Source/Odin/Private/OdinCaptureMedia.cpp:87-90 | In a safe trace, a destroyed handle is never live again at any later point, because creates only hand out fresh handles. |
| `OdinNative.NoUseAfterDestroy` | Source/Odin/Private/OdinCaptureMedia.cpp:34-37 | In a safe trace, no call after a destroy destroys, pushes into or adds that same stream to a room. This is the no-double-free, no-use-after-destroy property. |
| `OdinNative.OdinSdk.AudioStreamCreate` | Source/Odin/Private/OdinCaptureMedia.cpp:50-51 | Returns a handle never handed out before and now live, or 0 when the native layer cannot allocate the config. The call is recorded. |
| `OdinNative.OdinSdk.MediaStreamDestroy` | Source/Odin/Private/OdinCaptureMedia.cpp:101-104 | Accepts only a live handle. That handle stops being live and the native status is returned. |
| `OdinNative.OdinSdk.AudioPushData` | Source/Odin/Private/OdinCaptureMedia.cpp:71-74 | Accepts only a live handle. The push is recorded and no stream changes state. |
| `OdinNative.OdinSdk.RoomAddMedia` | Source/Odin/Private/OdinCaptureMedia.cpp:141-143 | Accepts a live handle or 0. Returns the native status for the room and media. |
| `CaptureCallback.Decide` | Source/Odin/Private/OdinCaptureMedia.cpp:56-74 | Decision table of the callback, each outcome if and only if its condition holds. Drop exactly when resetting. Recover exactly when not resetting and an attached capture's format differs. Push exactly when not resetting, the format agrees or there is no capture, and the handle is non-zero. |
| `CaptureCallback.Step` | Source/Odin/Private/OdinCaptureMedia.cpp:56-68 | A callback never changes the stream handle or the negotiated format. It raises the flag and queues exactly one recovery when, and only when, it sees a mismatch. |
| `CaptureCallback.ResettingDropsEverything` | Source/Odin/Private/OdinCaptureMedia.cpp:56-57 | While the reset flag is up, any run of callbacks drops every buffer and leaves every field unchanged, whatever the device reports. |
| `CaptureCallback.RecoveryAtMostOnce` | Source/Odin/Private/OdinCaptureMedia.cpp:59-68 | Over any run of callbacks, once a recovery is queued every later buffer is dropped, so at most one recovery is queued and nothing is pushed after it. The final flag and queue record exactly whether one was queued. |
| `CaptureCallback.MismatchRecoversOnce` | Source/Odin/Private/OdinCaptureMedia.cpp:117-121 | A format change seen with the flag down queues exactly one recovery and raises the flag. Every later buffer of the run is dropped. |
| `OdinCaptureMedia.AudioCapture.AddGeneratorDelegate` | Source/Odin/Private/OdinCaptureMedia.cpp:76 | Registers the media's callback under a delegate handle that is non-empty and not already registered; no other delegate changes. |
| `OdinCaptureMedia.AudioCapture.RemoveGeneratorDelegate` | Source/Odin/Private/OdinCaptureMedia.cpp:96-97 | Removes exactly the delegate under the given handle. |
| `OdinCaptureMedia.OdinRoom.UnbindCaptureMedia` | Source/Odin/Private/OdinCaptureMedia.cpp:137 | The media leaves the room's bound set and its connected room becomes null. |
| `OdinCaptureMedia.OdinRoom.BindCaptureMedia` | Source/Odin/Private/OdinCaptureMedia.cpp:150 | The media joins the room's bound set and its connected room becomes this room. |
| `OdinCaptureMedia.CaptureMedia.constructor` | Source/Odin/Private/OdinCaptureMedia.cpp:9-12 | A new binding owns no stream, has no capture and no room, and is not resetting. |
| `OdinCaptureMedia.CaptureMedia.SetRoom` | Source/Odin/Private/OdinCaptureMedia.cpp:14-17 | The connected room becomes the given one. |
| `OdinCaptureMedia.CaptureMedia.RemoveRoom` | Source/Odin/Private/OdinCaptureMedia.cpp:19-22 | The connected room becomes null. |
| `OdinCaptureMedia.CaptureMedia.RoomIsValid` | Source/Odin/Private/OdinCaptureMedia.cpp:122 | `connected_room_.IsValid()`: the room pointer is set and the room is alive. |
| `OdinCaptureMedia.CaptureMedia.SetAudioCapture` | Source/Odin/Private/OdinCaptureMedia.cpp:24-78 | The negotiated format is the capture's, or 48000 Hz with 1 channel without one. The old stream, if any, is destroyed exactly once before a fresh stream is created in the cast config. The old handle is not live afterwards. A delegate is registered exactly when the capture is non-null and passes the low-level check. Its frame leaves the flag, room and queue untouched. |
| `OdinCaptureMedia.CaptureMedia.ReplaceStream` | Source/Odin/Private/OdinCaptureMedia.cpp:34-51 | The stream half of SetAudioCapture (`StreamReplaced`): the old stream, if any, is destroyed exactly once and is not live afterwards; a stream never handed out before is created in the cast config of the given format, or the handle is 0 when the native layer cannot allocate it. |
| `OdinCaptureMedia.CaptureMedia.RegisterCallback` | Source/Odin/Private/OdinCaptureMedia.cpp:53-77 | The callback half of SetAudioCapture: for an attached capture that passes the low-level check, the callback is registered under a fresh non-empty handle, which the media keeps; otherwise the handle and the delegates are unchanged. The capture's format and validity never change. |
| `OdinCaptureMedia.CaptureMedia.OnAudio` | Source/Odin/Private/OdinCaptureMedia.cpp:54-75 | Outcome and new fields are those of `Step` on the old fields and the capture's format. The only native call is one push on a live handle, made exactly when the outcome is Pushed. |
| `OdinCaptureMedia.CaptureMedia.Reset` | Source/Odin/Private/OdinCaptureMedia.cpp:80-91 | Nulls the capture, clearing the delegate handle only if a capture was attached. Destroys a non-zero stream exactly once and zeroes the handle; with no stream it makes no native call. The device's delegates are untouched. |
| `OdinCaptureMedia.CaptureMedia.ResetOdinStream` | Source/Odin/Private/OdinCaptureMedia.cpp:93-109 | Unregisters the delegate and clears its handle. With a stream, destroys it once, zeroes the handle, returns the destroy status and keeps the flag. Without one, makes no native call, lowers the flag and returns 0. |
| `OdinCaptureMedia.CaptureMedia.BeginDestroy` | Source/Odin/Private/OdinCaptureMedia.cpp:111-115 | Same teardown and same contract as Reset: no capture, no stream, at most one destroy; the flag, room, format and queue are untouched. |
| `OdinCaptureMedia.CaptureMedia.HandleInputDeviceChanges` | Source/Odin/Private/OdinCaptureMedia.cpp:117-121 | Raises the reset flag and queues exactly one recovery. |
| `OdinCaptureMedia.CaptureMedia.RunPendingRecovery` | Source/Odin/Private/OdinCaptureMedia.cpp:121-153 | Takes one queued recovery off the queue. Without a live room or a capture: gives up with no native call and no unbind, and leaves flag, stream, delegates and room as they were. Otherwise it runs `Rebind`, with all of `Rebind`'s guarantees, including the fresh stream and delegate key of the new media. Either way the binding's format, the capture's format and validity and the room's liveness are unchanged. |
| `OdinCaptureMedia.CaptureMedia.Rebind` | Source/Odin/Private/OdinCaptureMedia.cpp:135-152 | Unbinds this media (its room becomes null), resets its stream, and builds fresh valid media on the same capture in the capture's format, not resetting and with nothing queued. It adds the new stream to the room and binds the new media, which then has the room as its connected room, exactly when the status is not an error; otherwise it reports that status. The exact native calls, delegate map, bound set and remaining flag are stated. The new stream is 0 exactly when the native layer cannot allocate the capture's format, and otherwise was never handed out before. The new delegate key is non-empty and held by no other delegate when the capture passes the low-level check, and is 0 otherwise, so no other media's delegate is overwritten. |
| `OdinCaptureMedia.CreateMedia` | Source/Odin/Private/OdinCaptureMedia.cpp:139 | `Odin_CreateMedia`: fresh valid media on the capture, in the capture's format, with no room, not resetting and nothing queued; the only native call is the create of its stream, which is 0 exactly when allocation fails and otherwise was never handed out before. A delegate is registered exactly when the capture passes the low-level check, under a non-empty key no other delegate holds; otherwise the media has delegate handle 0. |
| `CaptureScenarios.DeviceChangeRebinds` | Source/Odin/Private/OdinCaptureMedia.cpp:117-153 | A 48000 Hz mono to 44100 Hz stereo switch goes: push, then recovery once, then drop. The result is new 44100 Hz stereo media bound to the room in place of the old one. |
| `CaptureScenarios.RecoverInHealthyRoom` | Source/Odin/Private/OdinCaptureMedia.cpp:135-152 | Recovery in a live room, with a native layer that accepts every call: new media in the device's format, with a new non-zero stream, replaces the old media in the room. Its callback is registered under a fresh key beside the other delegates. The old stream is dead. |
| `CaptureScenarios.RecoveryResumesAudio` | Source/Odin/Private/OdinCaptureMedia.cpp:54-75 | After a recovery, the rebuilt media pushes the next buffer into a new, live stream. |
| `CaptureScenarios.RecoveryKeepsOtherDelegates` | Source/Odin/Private/OdinCaptureMedia.cpp:76 | Two media share one device. Rebuilding the first leaves the second one's delegate registered under its own key. |
| `CaptureScenarios.RecoversTwice` | Source/Odin/Private/OdinCaptureMedia.cpp:135-152 | Media bound to the room by a recovery recovers in its turn: a second device change again ends in new media, in the newest format, bound to the room. |
| `CaptureScenarios.RoomGoneAbortsRecovery` | Source/Odin/Private/OdinCaptureMedia.cpp:122-127 | A dead room aborts recovery. The old binding stays flagged and drops later buffers. |
| `CaptureScenarios.AddMediaErrorLeavesRoomUnbound` | Source/Odin/Private/OdinCaptureMedia.cpp:143-148 | An add-media error is reported and the new media is not bound. |
| `CaptureScenarios.ResetTwice` | Source/Odin/Private/OdinCaptureMedia.cpp:80-91 | The first Reset destroys once and the second makes no native call. The stale delegate's callback then pushes nothing. |
| `CaptureScenarios.UnallocatedStream` | Source/Odin/Private/OdinCaptureMedia.cpp:101-108 | Without an allocated stream the callback pushes nothing. The recovery's stream reset then lowers the old binding's flag. |

## Left out

- Concurrency. The scoped lock at line 95 and the real-time audio thread are
  not modelled. Every operation runs to completion, one after another, so a
  callback racing a reset is not covered.
- Sample contents and native encoding: the float buffer is reduced to its
  sample count and pushes are abstract.
- Logging, including the formatted error from `UOdinFunctionLibrary::FormatError`.
- `Super::BeginDestroy` and the rest of the Unreal object machinery, garbage
  collection, and a weak pointer's behaviour beyond "valid or not".
- A recovery task that runs after its media object was destroyed: the closure
  captures `this`, and the model assumes the object is still there.
- `Odin_CreateMedia` returning null: the model always builds new media, so
  the null branch of line 142 (adding handle 0 to the room) is not modelled.
  The null-room branch of line 140 is unreachable, because the room passed
  the `IsValid()` check at line 122; the model reads the room's handle
  directly.
- `UOdinRoom` internals (its source is not part of this model). Bind and
  unbind are set insertion and removal plus `SetRoom`/`RemoveRoom` on the
  media, and `RoomHandle()` is a constant of the room.
- Handle reuse by the native layer. Stream handles are taken as stream
  identities: a handle once handed out is never handed out again, which is
  what `DestroyedStaysDead` and `NoUseAfterDestroy` rest on. A native layer
  that recycles handle values would need a generation per handle.
- The delegate id counter `lastDelegateId` and the sdk's `nextHandle` are
  bookkeeping of the model; the contracts say that the ids and handles they
  produce are fresh, not what the counters hold.
- `odin.h` is not part of this model. `odin_is_error` is taken to mean a
  non-zero status, and native allocation failure is the environment's answer.
- `Source/Odin/Private/Odin.cpp`: library loading, platform paths,
  `odin_startup` and `odin_shutdown`.
