/** Clients of the capture binding that run it through whole episodes: a
    device switch, a room that is gone by the time recovery runs, a room that
    refuses the rebuilt stream, a repeated reset, a stream the native layer
    could not allocate, and recoveries that resume audio, repeat, and leave
    other bindings on the same device alone. Each result is proved from the contracts of
    the binding and its collaborators alone. */
module CaptureScenarios {
  import opened OdinNative
  import opened CaptureCallback
  import opened OdinCaptureMedia

  /** A binding on a 48000 Hz mono device, connected to a live room. */
  method Connected(sdk: OdinSdk, room: OdinRoom) returns (capture: AudioCapture, media: CaptureMedia)
    requires sdk.Valid()
    modifies sdk
    ensures fresh(capture) && fresh(media) && media.Valid() && media.sdk == sdk
    ensures capture.sampleRate == 48000 && capture.numChannels == 1 && capture.validLowLevel
    ensures media.audioCapture == capture && media.connectedRoom == room
    ensures media.streamSampleRate == 48000 && media.streamNumChannels == 1
    ensures !media.isBeingReset && media.pendingRecoveries == 0
    ensures (media.streamHandle == 0) == !sdk.allocates(StreamConfig(48000, 1))
    ensures media.generatorHandle != 0 && capture.generatorDelegates == map[media.generatorHandle := media]
  {
    capture := new AudioCapture(48000, 1, true);
    media := new CaptureMedia(sdk);
    media.SetRoom(room);
    media.SetAudioCapture(capture);
  }

  /** One queued recovery of media bound to a live room, under a native layer
      that allocates every stream and accepts every add-media: new media, in
      the device's format and with a new live stream, replaces the old one in
      the room, and its callback is registered beside the other delegates. */
  method RecoverInHealthyRoom(sdk: OdinSdk, room: OdinRoom, capture: AudioCapture, media: CaptureMedia)
    returns (recovery: RecoveryOutcome, rebuilt: CaptureMedia)
    requires media.Valid() && media.sdk == sdk && media.pendingRecoveries > 0
    requires media.audioCapture == capture && media.connectedRoom == room && room.alive && capture.validLowLevel
    requires forall c :: sdk.allocates(c)
    requires forall r, h :: sdk.addMediaStatus(r, h) == 0
    modifies sdk, room, capture, media
    ensures recovery == Rebound && fresh(rebuilt) && rebuilt.Valid() && rebuilt.sdk == sdk
    ensures rebuilt.audioCapture == capture && rebuilt.connectedRoom == room && room.alive
    ensures !rebuilt.isBeingReset && rebuilt.pendingRecoveries == 0
    ensures rebuilt.streamSampleRate == old(capture.sampleRate) && rebuilt.streamNumChannels == old(capture.numChannels)
    ensures capture.sampleRate == old(capture.sampleRate) && capture.numChannels == old(capture.numChannels)
    ensures capture.validLowLevel
    ensures rebuilt.streamHandle != 0 && rebuilt.streamHandle != old(media.streamHandle)
    ensures old(media.streamHandle) !in sdk.Live()
    ensures room.boundCaptureMedia == (old(room.boundCaptureMedia) - {media}) + {rebuilt}
    ensures rebuilt.generatorHandle != 0 && rebuilt.generatorHandle !in old(capture.generatorDelegates) - {old(media.generatorHandle)}
    ensures capture.generatorDelegates ==
      (old(capture.generatorDelegates) - {old(media.generatorHandle)})[rebuilt.generatorHandle := rebuilt]
  {
    var r;
    recovery, r := media.RunPendingRecovery();
    rebuilt := r;
  }

  /** The device switches from 48000 Hz mono to 44100 Hz stereo: the buffer
      before the switch is pushed, the first one after it schedules one
      recovery, the next is dropped, and recovery binds new 44100 Hz stereo
      media to the room in place of the old one, whose stream is gone. */
  method DeviceChangeRebinds()
    returns (before: CallbackOutcome, atChange: CallbackOutcome, after: CallbackOutcome,
             recovery: RecoveryOutcome, rebuiltRate: int, rebuiltChannels: int, boundToRoom: bool)
    ensures before == Pushed && atChange == RecoveryScheduled && after == Suppressed
    ensures recovery == Rebound && rebuiltRate == 44100 && rebuiltChannels == 2 && boundToRoom
  {
    var sdk := new OdinSdk(_ => true, _ => 0, (_, _) => 0);
    var room := new OdinRoom(7);
    var capture, media := Connected(sdk, room);
    room.BindCaptureMedia(media);
    var oldHandle := media.streamHandle;

    before := media.OnAudio(480);
    capture.sampleRate, capture.numChannels := 44100, 2;
    atChange := media.OnAudio(480);
    after := media.OnAudio(480);

    var newMedia;
    recovery, newMedia := RecoverInHealthyRoom(sdk, room, capture, media);
    rebuiltRate, rebuiltChannels := newMedia.streamSampleRate, newMedia.streamNumChannels;
    assert oldHandle != 0 && oldHandle !in sdk.Live();
    boundToRoom := newMedia in room.boundCaptureMedia && media !in room.boundCaptureMedia;
  }

  /** The media a recovery binds to the room can recover in its turn: after
      a second device change it is replaced the same way. */
  method RecoversTwice() returns (first: RecoveryOutcome, second: RecoveryOutcome, rate: int, boundToRoom: bool)
    ensures first == Rebound && second == Rebound && rate == 16000 && boundToRoom
  {
    var sdk := new OdinSdk(_ => true, _ => 0, (_, _) => 0);
    var room := new OdinRoom(7);
    var capture, media := Connected(sdk, room);
    capture.sampleRate := 44100;
    var _ := media.OnAudio(480);
    var rebuilt;
    first, rebuilt := RecoverInHealthyRoom(sdk, room, capture, media);

    capture.sampleRate := 16000;
    var _ := rebuilt.OnAudio(160);
    var again;
    second, again := RecoverInHealthyRoom(sdk, room, capture, rebuilt);
    rate := again.streamSampleRate;
    boundToRoom := again in room.boundCaptureMedia;
  }

  /** After a recovery the device's buffers flow again: the rebuilt media,
      with the stream the native layer allocated for it, pushes the next
      buffer into that live stream. */
  method RecoveryResumesAudio() returns (recovery: RecoveryOutcome, resumed: CallbackOutcome, newStream: bool)
    ensures recovery == Rebound && resumed == Pushed && newStream
  {
    var sdk := new OdinSdk(_ => true, _ => 0, (_, _) => 0);
    var room := new OdinRoom(7);
    var capture, media := Connected(sdk, room);
    var oldHandle := media.streamHandle;
    capture.numChannels := 2;
    var _ := media.OnAudio(480);

    var rebuilt;
    recovery, rebuilt := RecoverInHealthyRoom(sdk, room, capture, media);
    resumed := rebuilt.OnAudio(960);
    newStream := rebuilt.streamHandle != 0 && rebuilt.streamHandle != oldHandle;
    assert rebuilt.streamHandle in sdk.Live() && oldHandle !in sdk.Live();
  }

  /** Two bindings share one device. When the first is rebuilt, the
      second's callback stays registered under its own handle: the rebuilt
      media's delegate takes a key no other delegate holds. */
  method RecoveryKeepsOtherDelegates() returns (recovery: RecoveryOutcome, otherKept: bool)
    ensures recovery == Rebound && otherKept
  {
    var sdk := new OdinSdk(_ => true, _ => 0, (_, _) => 0);
    var room := new OdinRoom(7);
    var capture, media := Connected(sdk, room);
    var firstId := media.generatorHandle;
    var other := CreateMedia(sdk, capture);
    var otherId := other.generatorHandle;
    capture.sampleRate := 44100;
    media.HandleInputDeviceChanges();
    ghost var before := capture.generatorDelegates;
    assert otherId in before - {firstId} && before[otherId] == other;

    var rebuilt;
    recovery, rebuilt := RecoverInHealthyRoom(sdk, room, capture, media);
    assert otherId != rebuilt.generatorHandle;
    otherKept := otherId in capture.generatorDelegates && capture.generatorDelegates[otherId] == other;
  }

  /** Recovery finds the room gone: nothing is rebuilt and the old binding
      keeps its reset flag, so it drops every later buffer. */
  method RoomGoneAbortsRecovery()
    returns (recovery: RecoveryOutcome, stillResetting: bool, later: CallbackOutcome)
    ensures recovery == MissingRoom && stillResetting && later == Suppressed
  {
    var sdk := new OdinSdk(_ => true, _ => 0, (_, _) => 0);
    var room := new OdinRoom(7);
    var capture, media := Connected(sdk, room);
    capture.numChannels := 2;
    var _ := media.OnAudio(480);
    room.alive := false;

    var rebuilt;
    recovery, rebuilt := media.RunPendingRecovery();
    stillResetting := media.isBeingReset;
    later := media.OnAudio(480);
  }

  /** The room refuses the rebuilt stream: the error status is reported and
      the new media is not bound to the room. */
  method AddMediaErrorLeavesRoomUnbound() returns (recovery: RecoveryOutcome, bound: bool)
    ensures recovery == AddMediaFailed(3) && !bound
  {
    var sdk := new OdinSdk(_ => true, _ => 0, (_, _) => 3);
    var room := new OdinRoom(7);
    var capture, media := Connected(sdk, room);
    capture.sampleRate := 16000;
    var _ := media.OnAudio(160);

    var newMedia;
    recovery, newMedia := media.RunPendingRecovery();
    bound := newMedia in room.boundCaptureMedia;
  }

  /** The first Reset destroys the stream once; a second one makes no native
      call. The delegate Reset leaves registered can still run the callback,
      which then finds no stream and pushes nothing. */
  method ResetTwice() returns (handleAfterFirst: Handle, handleAfterSecond: Handle, stale: CallbackOutcome)
    ensures handleAfterFirst == 0 && handleAfterSecond == 0 && stale == NoStream
  {
    var sdk := new OdinSdk(_ => true, _ => 0, (_, _) => 0);
    var room := new OdinRoom(7);
    var capture, media := Connected(sdk, room);
    var h, id := media.streamHandle, media.generatorHandle;
    ghost var start := sdk.trace;

    media.Reset();
    handleAfterFirst := media.streamHandle;
    assert sdk.trace == start + [DestroyCall(h)];
    ghost var afterFirst := sdk.trace;

    media.Reset();
    handleAfterSecond := media.streamHandle;
    assert sdk.trace == afterFirst;

    assert id in capture.generatorDelegates && capture.generatorDelegates[id] == media;
    stale := media.OnAudio(480);
    assert sdk.trace == afterFirst;
  }

  /** The native layer cannot allocate the stream: the callback has nothing
      to push, and the recovery's stream reset, finding no handle, lowers the
      reset flag of the old binding. */
  method UnallocatedStream() returns (first: CallbackOutcome, recovery: RecoveryOutcome, oldFlag: bool)
    ensures first == NoStream && recovery == Rebound && !oldFlag
  {
    var sdk := new OdinSdk(_ => false, _ => 0, (_, _) => 0);
    var room := new OdinRoom(7);
    var capture, media := Connected(sdk, room);
    first := media.OnAudio(480);
    capture.sampleRate := 44100;
    var _ := media.OnAudio(480);

    var rebuilt;
    recovery, rebuilt := media.RunPendingRecovery();
    oldFlag := media.isBeingReset;
  }
}
