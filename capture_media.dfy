/** UOdinCaptureMedia: binds an audio capture device to an outbound native
    audio stream, feeds it from the device's generator callback, and rebuilds
    the binding (a new media object added to the room) when the device's
    format changes. The native library, the capture device and the room are
    the collaborators it calls. */
module OdinCaptureMedia {
  import opened OdinNative
  import opened CaptureCallback

  /** UAudioCapture: a capture device whose format can change under the
      binding, with the generator delegates registered on it. */
  class AudioCapture {
    var sampleRate: int
    var numChannels: int
    /** What IsValidLowLevel answers for this object. */
    var validLowLevel: bool
    /** Registered generator delegates by handle; each calls back one media. */
    var generatorDelegates: map<nat, CaptureMedia>
    var lastDelegateId: nat

    /** Every registered delegate handle is non-empty and was handed out. */
    ghost predicate Valid()
      reads this
    {
      forall k :: k in generatorDelegates ==> 0 < k <= lastDelegateId
    }

    constructor (sampleRate: int, numChannels: int, validLowLevel: bool)
      ensures Valid()
      ensures this.sampleRate == sampleRate && this.numChannels == numChannels
      ensures this.validLowLevel == validLowLevel && generatorDelegates == map[]
    {
      this.sampleRate := sampleRate;
      this.numChannels := numChannels;
      this.validLowLevel := validLowLevel;
      generatorDelegates := map[];
      lastDelegateId := 0;
    }

    ghost function CurrentFormat(): Format
      reads this
    {
      Format(sampleRate, numChannels)
    }

    /** AddGeneratorDelegate: registers `media`'s callback under a new,
        non-empty delegate handle. */
    method AddGeneratorDelegate(media: CaptureMedia) returns (id: nat)
      requires Valid()
      modifies this`generatorDelegates, this`lastDelegateId
      ensures Valid()
      ensures id != 0 && id !in old(generatorDelegates)
      ensures generatorDelegates == old(generatorDelegates)[id := media]
    {
      lastDelegateId := lastDelegateId + 1;
      id := lastDelegateId;
      generatorDelegates := generatorDelegates[id := media];
    }

    /** RemoveGeneratorDelegate: unregisters the delegate under `id`, if any. */
    method RemoveGeneratorDelegate(id: nat)
      requires Valid()
      modifies this`generatorDelegates
      ensures Valid()
      ensures generatorDelegates == old(generatorDelegates) - {id}
    {
      generatorDelegates := generatorDelegates - {id};
    }
  }

  /** UOdinRoom, as far as the binding sees it: a native room handle, whether
      the object is still alive (what a weak pointer to it reports), and the
      capture media bound to it. Binding and unbinding also record the room
      on the media, through SetRoom and RemoveRoom. */
  class OdinRoom {
    const roomHandle: nat
    var alive: bool
    var boundCaptureMedia: set<CaptureMedia>

    constructor (roomHandle: nat)
      ensures this.roomHandle == roomHandle && alive && boundCaptureMedia == {}
    {
      this.roomHandle := roomHandle;
      alive := true;
      boundCaptureMedia := {};
    }

    method BindCaptureMedia(media: CaptureMedia)
      modifies this`boundCaptureMedia, media`connectedRoom
      ensures boundCaptureMedia == old(boundCaptureMedia) + {media}
      ensures media.connectedRoom == this
    {
      media.SetRoom(this);
      boundCaptureMedia := boundCaptureMedia + {media};
    }

    method UnbindCaptureMedia(media: CaptureMedia)
      modifies this`boundCaptureMedia, media`connectedRoom
      ensures boundCaptureMedia == old(boundCaptureMedia) - {media}
      ensures media.connectedRoom == null
    {
      boundCaptureMedia := boundCaptureMedia - {media};
      media.RemoveRoom();
    }
  }

  /** How a deferred recovery ended. */
  datatype RecoveryOutcome =
    | MissingRoom                      // no live room: nothing rebuilt
    | MissingCapture                   // no capture attached: nothing rebuilt
    | AddMediaFailed(rc: ReturnCode)   // new media built, the room refused it
    | Rebound                          // new media built and bound to the room

  const DEFAULT_SAMPLE_RATE: int := 48000
  const DEFAULT_CHANNELS: int := 1

  class CaptureMedia {
    const sdk: OdinSdk
    var streamHandle: Handle
    var streamSampleRate: int
    var streamNumChannels: int
    var isBeingReset: bool
    var audioCapture: AudioCapture?
    var generatorHandle: nat
    var connectedRoom: OdinRoom?
    /** Recoveries queued on the game thread and not yet run. */
    var pendingRecoveries: nat

    /** The object owns at most one stream: a non-zero handle is live and was
        created with the negotiated format. */
    ghost predicate Valid()
      reads this, sdk, audioCapture
    {
      sdk.Valid() &&
      (audioCapture != null ==> audioCapture.Valid()) &&
      (streamHandle != 0 ==>
         streamHandle in sdk.Live() &&
         CreateCall(NativeConfig(streamSampleRate, streamNumChannels), streamHandle) in sdk.trace)
    }

    /** The fields the generator callback reads and writes. */
    ghost function CallbackView(): CallbackState
      reads this
    {
      CallbackState(isBeingReset, Format(streamSampleRate, streamNumChannels), streamHandle, pendingRecoveries)
    }

    /** The attached capture's current format, None when none is attached. */
    ghost function CaptureView(): Option<Format>
      reads this, audioCapture
    {
      if audioCapture == null then None else Some(audioCapture.CurrentFormat())
    }

    /** connected_room_.IsValid(): the weak room pointer still reaches a
        live room. */
    predicate RoomIsValid()
      reads this, connectedRoom
    {
      connectedRoom != null && connectedRoom.alive
    }

    /** A new object: every field zero, null or false. */
    constructor (sdk: OdinSdk)
      requires sdk.Valid()
      ensures Valid() && this.sdk == sdk
      ensures streamHandle == 0 && streamSampleRate == 0 && streamNumChannels == 0
      ensures !isBeingReset && audioCapture == null && generatorHandle == 0
      ensures connectedRoom == null && pendingRecoveries == 0
    {
      this.sdk := sdk;
      streamHandle := 0;
      streamSampleRate := 0;
      streamNumChannels := 0;
      isBeingReset := false;
      audioCapture := null;
      generatorHandle := 0;
      connectedRoom := null;
      pendingRecoveries := 0;
    }

    method SetRoom(room: OdinRoom?)
      modifies this`connectedRoom
      ensures connectedRoom == room
    {
      connectedRoom := room;
    }

    method RemoveRoom()
      modifies this`connectedRoom
      ensures connectedRoom == null
    {
      connectedRoom := null;
    }

    /** Binds `capture`: destroys the stream it owns, negotiates the capture's
        format (48000 Hz, 1 channel without a capture), creates a stream in it
        and, for a capture that passes the low-level check, registers the
        generator callback. The destroy status is ignored, and the reset
        flag, the room and the queued recoveries are left alone. */
    method SetAudioCapture(capture: AudioCapture?)
      requires Valid() && (capture != null ==> capture.Valid())
      modifies this`audioCapture, this`streamHandle, this`streamSampleRate, this`streamNumChannels,
        this`generatorHandle, sdk, capture
      ensures Valid() && audioCapture == capture
      ensures capture == null ==>
        streamSampleRate == DEFAULT_SAMPLE_RATE && streamNumChannels == DEFAULT_CHANNELS
      ensures capture != null ==>
        streamSampleRate == old(capture.sampleRate) && streamNumChannels == old(capture.numChannels)
      ensures StreamReplaced(old(sdk.trace), old(sdk.Live()), old(sdk.Created()), old(streamHandle))
      ensures if capture != null && old(capture.validLowLevel) then
          generatorHandle != 0 && generatorHandle !in old(capture.generatorDelegates) &&
          capture.generatorDelegates == old(capture.generatorDelegates)[generatorHandle := this]
        else
          generatorHandle == old(generatorHandle) &&
          (capture != null ==> capture.generatorDelegates == old(capture.generatorDelegates))
      ensures capture != null ==>
        capture.sampleRate == old(capture.sampleRate) && capture.numChannels == old(capture.numChannels) &&
        capture.validLowLevel == old(capture.validLowLevel)
    {
      audioCapture := capture;
      var rate, channels := DEFAULT_SAMPLE_RATE, DEFAULT_CHANNELS;
      if capture != null {
        rate, channels := capture.sampleRate, capture.numChannels;
      }
      ReplaceStream(rate, channels);
      RegisterCallback();
    }

    /** The callback half of SetAudioCapture: for an attached capture that
        passes the low-level check, registers the generator callback and
        keeps its delegate handle; otherwise changes nothing. */
    method RegisterCallback()
      requires Valid()
      modifies this`generatorHandle, audioCapture
      ensures Valid()
      ensures if audioCapture != null && old(audioCapture.validLowLevel) then
          generatorHandle != 0 && generatorHandle !in old(audioCapture.generatorDelegates) &&
          audioCapture.generatorDelegates == old(audioCapture.generatorDelegates)[generatorHandle := this]
        else
          generatorHandle == old(generatorHandle) &&
          (audioCapture != null ==> audioCapture.generatorDelegates == old(audioCapture.generatorDelegates))
      ensures audioCapture != null ==>
        audioCapture.CurrentFormat() == old(audioCapture.CurrentFormat()) &&
        audioCapture.validLowLevel == old(audioCapture.validLowLevel)
    {
      if audioCapture != null && audioCapture.validLowLevel {
        generatorHandle := audioCapture.AddGeneratorDelegate(this);
      }
    }

    /** The stream half of SetAudioCapture: destroys the stream the object
        owns, if any, ignoring the status, and creates one in the format
        `rate` Hz, `channels` channels, after the casts to the native widths. */
    method ReplaceStream(rate: int, channels: int)
      requires Valid()
      modifies this`streamHandle, this`streamSampleRate, this`streamNumChannels, sdk`trace, sdk`nextHandle
      ensures Valid()
      ensures streamSampleRate == rate && streamNumChannels == channels
      ensures StreamReplaced(old(sdk.trace), old(sdk.Live()), old(sdk.Created()), old(streamHandle))
    {
      if streamHandle != 0 {
        var _ := sdk.MediaStreamDestroy(streamHandle);
        streamHandle := 0;
      }
      streamSampleRate, streamNumChannels := rate, channels;
      streamHandle := sdk.AudioStreamCreate(NativeConfig(rate, channels));
    }

    /** What replacing the stream did, given the native trace, live and
        created handles and the stream handle before it: the calls made since
        are the destroy of the old handle, if it was non-zero, and the create
        of the current stream in the cast config of the negotiated format; the
        old handle is dead, and the current one, if non-zero, was never handed
        out before and is live. */
    ghost predicate StreamReplaced(trace: seq<NativeCall>, live: set<Handle>, created: set<Handle>, handle: Handle)
      reads this`streamHandle, this`streamSampleRate, this`streamNumChannels, sdk
    {
      var config := NativeConfig(streamSampleRate, streamNumChannels);
      sdk.trace == trace + (if handle != 0 then [DestroyCall(handle)] else []) + [CreateCall(config, streamHandle)] &&
      (streamHandle == 0) == !sdk.allocates(config) &&
      (handle != 0 ==> handle !in sdk.Live()) &&
      (streamHandle != 0 ==> streamHandle !in created) &&
      sdk.Live() == (live - {handle}) + (if streamHandle != 0 then {streamHandle} else {})
    }

    /** The generator callback, run by the capture device for each buffer of
        `numSamples` samples: dropped while a reset is under way; a format
        that differs from the negotiated one starts a recovery; otherwise the
        samples go into the stream, if there is one. */
    method OnAudio(numSamples: int) returns (outcome: CallbackOutcome)
      requires Valid()
      modifies this, sdk
      ensures Valid()
      ensures (outcome, CallbackView()) == Step(old(CallbackView()), old(CaptureView()))
      ensures sdk.trace == old(sdk.trace) + (if outcome == Pushed then [PushCall(streamHandle, numSamples)] else [])
      ensures outcome == Pushed ==> streamHandle in sdk.Live()
      ensures audioCapture == old(audioCapture) && connectedRoom == old(connectedRoom)
      ensures generatorHandle == old(generatorHandle)
    {
      if isBeingReset {
        return Suppressed;
      }

      if audioCapture != null
         && (streamSampleRate != audioCapture.sampleRate || streamNumChannels != audioCapture.numChannels)
      {
        HandleInputDeviceChanges();
        return RecoveryScheduled;
      }

      if streamHandle != 0 {
        sdk.AudioPushData(streamHandle, numSamples);
        return Pushed;
      }
      return NoStream;
    }

    /** Drops the capture reference (the delegate stays registered on the
        device) and destroys the stream if there is one. */
    method Reset()
      requires Valid()
      modifies this, sdk
      ensures Valid()
      ensures audioCapture == null && streamHandle == 0
      ensures generatorHandle == if old(audioCapture) != null then 0 else old(generatorHandle)
      ensures sdk.trace == old(sdk.trace) + (if old(streamHandle) != 0 then [DestroyCall(old(streamHandle))] else [])
      ensures old(streamHandle) !in sdk.Live()
      ensures isBeingReset == old(isBeingReset) && connectedRoom == old(connectedRoom)
      ensures streamSampleRate == old(streamSampleRate) && streamNumChannels == old(streamNumChannels)
      ensures pendingRecoveries == old(pendingRecoveries)
    {
      if audioCapture != null {
        audioCapture := null;
        generatorHandle := 0;
      }

      if streamHandle != 0 {
        var _ := sdk.MediaStreamDestroy(streamHandle);
        streamHandle := 0;
      }
    }

    /** Unregisters the generator callback and destroys the stream. With a
        stream it returns the destroy status and leaves the reset flag as it
        was; without one it makes no native call, lowers the flag and returns
        0. */
    method ResetOdinStream() returns (rc: ReturnCode)
      requires Valid()
      modifies this, sdk, audioCapture
      ensures Valid()
      ensures generatorHandle == 0 && streamHandle == 0 && audioCapture == old(audioCapture)
      ensures audioCapture != null ==>
        audioCapture.generatorDelegates == old(audioCapture.generatorDelegates) - {old(generatorHandle)} &&
        audioCapture.CurrentFormat() == old(audioCapture.CurrentFormat()) &&
        audioCapture.validLowLevel == old(audioCapture.validLowLevel)
      ensures old(streamHandle) != 0 ==>
        rc == sdk.destroyStatus(old(streamHandle)) && isBeingReset == old(isBeingReset) &&
        sdk.trace == old(sdk.trace) + [DestroyCall(old(streamHandle))]
      ensures old(streamHandle) == 0 ==>
        rc == 0 && !isBeingReset && sdk.trace == old(sdk.trace)
      ensures old(streamHandle) !in sdk.Live() && sdk.Created() == old(sdk.Created())
      ensures connectedRoom == old(connectedRoom) && pendingRecoveries == old(pendingRecoveries)
      ensures streamSampleRate == old(streamSampleRate) && streamNumChannels == old(streamNumChannels)
    {
      if audioCapture != null {
        audioCapture.RemoveGeneratorDelegate(generatorHandle);
      }

      generatorHandle := 0;

      if streamHandle != 0 {
        rc := sdk.MediaStreamDestroy(streamHandle);
        streamHandle := 0;
        return;
      }
      isBeingReset := false;

      rc := 0;
    }

    /** The object is going away: the same teardown as Reset. */
    method BeginDestroy()
      requires Valid()
      modifies this, sdk
      ensures Valid()
      ensures audioCapture == null && streamHandle == 0
      ensures generatorHandle == if old(audioCapture) != null then 0 else old(generatorHandle)
      ensures sdk.trace == old(sdk.trace) + (if old(streamHandle) != 0 then [DestroyCall(old(streamHandle))] else [])
      ensures old(streamHandle) !in sdk.Live()
      ensures isBeingReset == old(isBeingReset) && connectedRoom == old(connectedRoom)
      ensures streamSampleRate == old(streamSampleRate) && streamNumChannels == old(streamNumChannels)
      ensures pendingRecoveries == old(pendingRecoveries)
    {
      Reset();
    }

    /** Raises the reset flag and queues one recovery on the game thread. */
    method HandleInputDeviceChanges()
      requires Valid()
      modifies this`isBeingReset, this`pendingRecoveries
      ensures Valid()
      ensures isBeingReset && pendingRecoveries == old(pendingRecoveries) + 1
    {
      isBeingReset := true;
      pendingRecoveries := pendingRecoveries + 1;
    }

    /** Runs one queued recovery. Without a live room or a capture it gives
        up and changes nothing. Otherwise it rebuilds the binding (Rebind).
        The old binding's format, the capture's format and validity and the
        room's liveness never change. */
    method RunPendingRecovery() returns (outcome: RecoveryOutcome, newMedia: CaptureMedia?)
      requires Valid() && pendingRecoveries > 0
      modifies this, sdk, audioCapture, connectedRoom
      ensures Valid() && pendingRecoveries == old(pendingRecoveries) - 1
      ensures audioCapture == old(audioCapture)
      ensures streamSampleRate == old(streamSampleRate) && streamNumChannels == old(streamNumChannels)
      ensures audioCapture != null ==>
        audioCapture.CurrentFormat() == old(audioCapture.CurrentFormat()) &&
        audioCapture.validLowLevel == old(audioCapture.validLowLevel)
      ensures old(connectedRoom) != null ==> old(connectedRoom).alive == old(connectedRoom.alive)
      ensures !old(RoomIsValid()) ==> outcome == MissingRoom
      ensures old(RoomIsValid()) && old(audioCapture) == null ==> outcome == MissingCapture
      ensures outcome.MissingRoom? || outcome.MissingCapture? ==>
        newMedia == null && sdk.trace == old(sdk.trace) && connectedRoom == old(connectedRoom) &&
        streamHandle == old(streamHandle) && isBeingReset == old(isBeingReset) &&
        generatorHandle == old(generatorHandle) &&
        (connectedRoom != null ==> connectedRoom.boundCaptureMedia == old(connectedRoom.boundCaptureMedia)) &&
        (audioCapture != null ==> audioCapture.generatorDelegates == old(audioCapture.generatorDelegates))
      ensures old(RoomIsValid()) && old(audioCapture) != null ==>
        newMedia != null && fresh(newMedia) &&
        RebindDone(old(connectedRoom), old(connectedRoom.boundCaptureMedia), old(audioCapture.CurrentFormat()),
                   old(audioCapture.validLowLevel), old(audioCapture.generatorDelegates),
                   old(streamHandle), old(generatorHandle), old(isBeingReset), old(sdk.trace), outcome, newMedia)
    {
      pendingRecoveries := pendingRecoveries - 1;

      if !RoomIsValid() {
        return MissingRoom, null;
      }
      if audioCapture == null {
        return MissingCapture, null;
      }

      outcome, newMedia := Rebind();
    }

    /** The state a rebuild leaves, given the room, its bound set, the
        capture's format, validity and delegates, and this binding's handle,
        delegate handle, reset flag and the native trace before it: this
        binding is unbound and its stream reset; fresh media on the same
        capture, in the capture's format, owns a new stream (never handed out
        before, and 0 exactly when the native layer cannot allocate it) that
        was added to the room, and is bound to the room exactly when that call
        reported no error. Its callback is registered under a key no other
        delegate holds when the capture passes the low-level check; otherwise
        it has no delegate handle. */
    ghost predicate RebindDone(room: OdinRoom, bound: set<CaptureMedia>, format: Format, validLowLevel: bool,
                               delegates: map<nat, CaptureMedia>, handle: Handle, generator: nat, beingReset: bool,
                               trace: seq<NativeCall>, outcome: RecoveryOutcome, newMedia: CaptureMedia)
      reads this, sdk, audioCapture, room, newMedia, newMedia.sdk, newMedia.audioCapture
    {
      connectedRoom == null && audioCapture != null &&
      newMedia.Valid() && newMedia.sdk == sdk && newMedia.audioCapture == audioCapture &&
      Format(newMedia.streamSampleRate, newMedia.streamNumChannels) == format &&
      !newMedia.isBeingReset && newMedia.pendingRecoveries == 0 &&
      newMedia.connectedRoom == (if outcome == Rebound then room else null) &&
      streamHandle == 0 && generatorHandle == 0 &&
      isBeingReset == (beingReset && handle != 0) &&
      handle !in sdk.Live() &&
      sdk.trace == trace
        + (if handle != 0 then [DestroyCall(handle)] else [])
        + [CreateCall(NativeConfig(format.sampleRate, format.channels), newMedia.streamHandle),
           AddMediaCall(room.roomHandle, newMedia.streamHandle)] &&
      (newMedia.streamHandle == 0) == !sdk.allocates(NativeConfig(format.sampleRate, format.channels)) &&
      (newMedia.streamHandle != 0 ==> newMedia.streamHandle !in CreatedIn(trace)) &&
      (if IsError(sdk.addMediaStatus(room.roomHandle, newMedia.streamHandle))
       then outcome == AddMediaFailed(sdk.addMediaStatus(room.roomHandle, newMedia.streamHandle))
       else outcome == Rebound) &&
      room.boundCaptureMedia == (bound - {this}) + (if outcome == Rebound then {newMedia} else {}) &&
      audioCapture.generatorDelegates ==
        (if validLowLevel
         then (delegates - {generator})[newMedia.generatorHandle := newMedia]
         else delegates - {generator}) &&
      (if validLowLevel
       then newMedia.generatorHandle != 0 && newMedia.generatorHandle !in delegates - {generator}
       else newMedia.generatorHandle == 0)
    }

    /** The rebuild a recovery runs once the room and the capture are known
        to be there: unbind this binding, reset its stream, create new media
        on the same capture (Odin_CreateMedia), add the new stream to the room
        and bind the new media unless that call reports an error. */
    method Rebind() returns (outcome: RecoveryOutcome, newMedia: CaptureMedia)
      requires Valid() && RoomIsValid() && audioCapture != null
      modifies this, sdk, audioCapture, connectedRoom
      ensures Valid() && fresh(newMedia) && !outcome.MissingRoom? && !outcome.MissingCapture?
      ensures audioCapture == old(audioCapture) && pendingRecoveries == old(pendingRecoveries)
      ensures streamSampleRate == old(streamSampleRate) && streamNumChannels == old(streamNumChannels)
      ensures audioCapture.CurrentFormat() == old(audioCapture.CurrentFormat())
      ensures audioCapture.validLowLevel == old(audioCapture.validLowLevel)
      ensures old(connectedRoom).alive
      ensures RebindDone(old(connectedRoom), old(connectedRoom.boundCaptureMedia), old(audioCapture.CurrentFormat()),
                         old(audioCapture.validLowLevel), old(audioCapture.generatorDelegates),
                         old(streamHandle), old(generatorHandle), old(isBeingReset), old(sdk.trace), outcome, newMedia)
    {
      var capturePointer := audioCapture;
      var roomPointer := connectedRoom;
      roomPointer.UnbindCaptureMedia(this);
      var _ := ResetOdinStream();

      newMedia := CreateMedia(sdk, capturePointer);

      var result := sdk.RoomAddMedia(roomPointer.roomHandle, newMedia.streamHandle);
      if IsError(result) {
        outcome := AddMediaFailed(result);
      } else {
        roomPointer.BindCaptureMedia(newMedia);
        outcome := Rebound;
      }
    }
  }

  /** Odin_CreateMedia: new media on `capture`, with a stream in the
      capture's format and, for a capture that passes the low-level check,
      its generator callback registered. It belongs to no room yet. */
  method CreateMedia(sdk: OdinSdk, capture: AudioCapture) returns (media: CaptureMedia)
    requires sdk.Valid() && capture.Valid()
    modifies sdk, capture
    ensures capture.CurrentFormat() == old(capture.CurrentFormat()) && capture.validLowLevel == old(capture.validLowLevel)
    ensures fresh(media) && media.Valid() && media.sdk == sdk && media.audioCapture == capture
    ensures Format(media.streamSampleRate, media.streamNumChannels) == capture.CurrentFormat()
    ensures !media.isBeingReset && media.pendingRecoveries == 0 && media.connectedRoom == null
    ensures sdk.trace == old(sdk.trace) + [CreateCall(NativeConfig(capture.sampleRate, capture.numChannels), media.streamHandle)]
    ensures (media.streamHandle == 0) == !sdk.allocates(NativeConfig(capture.sampleRate, capture.numChannels))
    ensures media.streamHandle != 0 ==> media.streamHandle !in old(sdk.Created())
    ensures sdk.Live() == old(sdk.Live()) + (if media.streamHandle != 0 then {media.streamHandle} else {})
    ensures capture.generatorDelegates ==
      if capture.validLowLevel then old(capture.generatorDelegates)[media.generatorHandle := media]
      else old(capture.generatorDelegates)
    ensures capture.validLowLevel ==>
      media.generatorHandle != 0 && media.generatorHandle !in old(capture.generatorDelegates)
    ensures !capture.validLowLevel ==> media.generatorHandle == 0
  {
    media := new CaptureMedia(sdk);
    media.SetAudioCapture(capture);
  }
}
