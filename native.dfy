/** The native ODIN media API as the capture binding uses it: audio streams are
    created, fed with samples and destroyed through opaque handles, and a stream
    is added to a room. Every call is recorded in a ghost trace, and the trace
    discipline (no handle used or destroyed after it was destroyed) is stated
    once, as a predicate over traces, and proved about every safe trace. */
module OdinNative {

  /** An OdinMediaStreamHandle; 0 stands for "no stream". */
  type Handle = nat

  /** An OdinReturnCode (an unsigned 32-bit status). */
  type ReturnCode = nat

  const UINT32_MODULUS: nat := 0x1_0000_0000
  const UINT8_MODULUS: nat := 0x100

  /** OdinAudioStreamConfig as the native layer receives it: a 32-bit unsigned
      sample rate and an 8-bit unsigned channel count. */
  datatype StreamConfig = StreamConfig(sampleRate: nat, channelCount: nat)

  /** The configuration passed to odin_audio_stream_create: the negotiated
      rate and channel count after the casts to uint32_t and uint8_t. */
  function NativeConfig(rate: int, channels: int): (c: StreamConfig)
    ensures c.sampleRate < UINT32_MODULUS && c.channelCount < UINT8_MODULUS
    ensures (rate - c.sampleRate) % UINT32_MODULUS == 0
    ensures (channels - c.channelCount) % UINT8_MODULUS == 0
    ensures 0 <= rate < UINT32_MODULUS ==> c.sampleRate == rate
    ensures 0 <= channels < UINT8_MODULUS ==> c.channelCount == channels
  {
    StreamConfig(rate % UINT32_MODULUS, channels % UINT8_MODULUS)
  }

  /** odin_is_error: a status is an error when it is not zero. */
  predicate IsError(rc: ReturnCode)
  {
    rc != 0
  }

  /** One call into the native layer. A create whose handle is 0 is an
      allocation the native layer refused. */
  datatype NativeCall =
    | CreateCall(config: StreamConfig, handle: Handle)
    | DestroyCall(handle: Handle)
    | PushCall(handle: Handle, samples: int)
    | AddMediaCall(room: nat, media: Handle)

  /** The handles that are live after the calls of `t`, in order. */
  function LiveAfter(t: seq<NativeCall>): set<Handle>
  {
    if t == [] then {}
    else
      var before := LiveAfter(t[..|t| - 1]);
      match t[|t| - 1]
      case CreateCall(_, h) => if h == 0 then before else before + {h}
      case DestroyCall(h) => before - {h}
      case _ => before
  }

  /** The non-zero handles ever handed out by the calls of `t`. */
  function CreatedIn(t: seq<NativeCall>): set<Handle>
  {
    if t == [] then {}
    else
      var before := CreatedIn(t[..|t| - 1]);
      match t[|t| - 1]
      case CreateCall(_, h) => if h == 0 then before else before + {h}
      case _ => before
  }

  /** Whether call `c` is permitted after the calls of `t`: a new handle is
      fresh, and destroy, push and add-media only name live streams. */
  predicate Allowed(t: seq<NativeCall>, c: NativeCall)
  {
    match c
    case CreateCall(_, h) => h !in CreatedIn(t)
    case DestroyCall(h) => h in LiveAfter(t)
    case PushCall(h, _) => h in LiveAfter(t)
    case AddMediaCall(_, m) => m == 0 || m in LiveAfter(t)
  }

  /** Every call of `t` is permitted by the calls before it. */
  predicate Safe(t: seq<NativeCall>)
  {
    t == [] || (Safe(t[..|t| - 1]) && Allowed(t[..|t| - 1], t[|t| - 1]))
  }

  /** Call `c` acts on the stream behind the non-zero handle `h`. */
  predicate Uses(c: NativeCall, h: Handle)
  {
    h != 0 &&
    match c
    case DestroyCall(g) => g == h
    case PushCall(g, _) => g == h
    case AddMediaCall(_, m) => m == h
    case CreateCall(_, _) => false
  }

  /** Only handles that were handed out can be live, and 0 never is. */
  lemma {:induction false} LiveWereCreated(t: seq<NativeCall>)
    ensures LiveAfter(t) <= CreatedIn(t)
    ensures 0 !in CreatedIn(t)
  {
    if t != [] {
      LiveWereCreated(t[..|t| - 1]);
    }
  }

  /** A prefix of a safe trace is safe. */
  lemma {:induction false} PrefixSafe(t: seq<NativeCall>, k: nat)
    requires Safe(t) && k <= |t|
    ensures Safe(t[..k])
  {
    if k < |t| {
      assert t[..|t| - 1][..k] == t[..k];
      PrefixSafe(t[..|t| - 1], k);
    } else {
      assert t[..k] == t;
    }
  }

  /** Once a safe trace destroys a handle, that handle stays dead: it is never
      handed out again, so no later prefix has it live. */
  lemma {:induction false} DestroyedStaysDead(t: seq<NativeCall>, i: nat, k: nat)
    requires Safe(t) && i < k <= |t| && t[i].DestroyCall?
    ensures t[i].handle in CreatedIn(t[..k])
    ensures t[i].handle !in LiveAfter(t[..k])
  {
    var h := t[i].handle;
    var p := t[..k - 1];
    assert t[..k][..k - 1] == p;
    assert t[..k][k - 1] == t[k - 1];
    PrefixSafe(t, k);
    if k == i + 1 {
      LiveWereCreated(p);
    } else {
      DestroyedStaysDead(t, i, k - 1);
    }
  }

  /** The resource discipline of a safe trace: after a stream is destroyed,
      no later call destroys it again, pushes into it or adds it to a room. */
  lemma NoUseAfterDestroy(t: seq<NativeCall>, i: nat, j: nat)
    requires Safe(t) && i < j < |t| && t[i].DestroyCall?
    ensures !Uses(t[j], t[i].handle)
  {
    DestroyedStaysDead(t, i, j);
    PrefixSafe(t, j + 1);
    assert t[..j + 1][..j] == t[..j];
    assert t[..j + 1][j] == t[j];
  }

  /** The native library. What the native layer answers (whether it can
      allocate a stream, the status of a destroy or of an add-media call) is
      fixed by the environment when the library is set up. */
  class OdinSdk {
    const allocates: StreamConfig -> bool
    const destroyStatus: Handle -> ReturnCode
    const addMediaStatus: (nat, Handle) -> ReturnCode
    var nextHandle: Handle
    ghost var trace: seq<NativeCall>

    ghost predicate Valid()
      reads this
    {
      Safe(trace) && 0 < nextHandle &&
      0 !in CreatedIn(trace) && LiveAfter(trace) <= CreatedIn(trace) &&
      forall h :: h in CreatedIn(trace) ==> h < nextHandle
    }

    /** Every handle ever handed out, live or destroyed. */
    ghost function Created(): set<Handle>
      reads this
    {
      CreatedIn(trace)
    }

    /** The streams that exist right now. */
    ghost function Live(): set<Handle>
      reads this
    {
      LiveAfter(trace)
    }

    constructor (allocates: StreamConfig -> bool, destroyStatus: Handle -> ReturnCode,
                 addMediaStatus: (nat, Handle) -> ReturnCode)
      ensures Valid() && trace == []
      ensures this.allocates == allocates && this.destroyStatus == destroyStatus
      ensures this.addMediaStatus == addMediaStatus
    {
      this.allocates := allocates;
      this.destroyStatus := destroyStatus;
      this.addMediaStatus := addMediaStatus;
      nextHandle := 1;
      trace := [];
    }

    /** odin_audio_stream_create: a fresh live handle, or 0 when the native
        layer cannot allocate the stream. */
    method AudioStreamCreate(config: StreamConfig) returns (h: Handle)
      requires Valid()
      modifies this`nextHandle, this`trace
      ensures Valid()
      ensures (h == 0) == !allocates(config)
      ensures h != 0 ==> h !in old(Created())
      ensures trace == old(trace) + [CreateCall(config, h)]
      ensures Live() == if h == 0 then old(Live()) else old(Live()) + {h}
      ensures Created() == if h == 0 then old(Created()) else old(Created()) + {h}
    {
      if allocates(config) {
        h := nextHandle;
        nextHandle := nextHandle + 1;
      } else {
        h := 0;
      }
      trace := trace + [CreateCall(config, h)];
      assert trace[..|trace| - 1] == old(trace);
    }

    /** odin_media_stream_destroy: only a live handle may be destroyed. */
    method MediaStreamDestroy(h: Handle) returns (rc: ReturnCode)
      requires Valid() && h in Live()
      modifies this`trace
      ensures Valid()
      ensures rc == destroyStatus(h)
      ensures trace == old(trace) + [DestroyCall(h)]
      ensures Live() == old(Live()) - {h}
      ensures Created() == old(Created())
    {
      rc := destroyStatus(h);
      trace := trace + [DestroyCall(h)];
      assert trace[..|trace| - 1] == old(trace);
    }

    /** odin_audio_push_data: samples go only into a live stream. */
    method AudioPushData(h: Handle, samples: int)
      requires Valid() && h in Live()
      modifies this`trace
      ensures Valid()
      ensures trace == old(trace) + [PushCall(h, samples)]
      ensures Live() == old(Live()) && Created() == old(Created())
    {
      trace := trace + [PushCall(h, samples)];
      assert trace[..|trace| - 1] == old(trace);
    }

    /** odin_room_add_media: the media handle is 0 or live. */
    method RoomAddMedia(room: nat, media: Handle) returns (rc: ReturnCode)
      requires Valid() && (media == 0 || media in Live())
      modifies this`trace
      ensures Valid()
      ensures rc == addMediaStatus(room, media)
      ensures trace == old(trace) + [AddMediaCall(room, media)]
      ensures Live() == old(Live()) && Created() == old(Created())
    {
      rc := addMediaStatus(room, media);
      trace := trace + [AddMediaCall(room, media)];
      assert trace[..|trace| - 1] == old(trace);
    }
  }
}
