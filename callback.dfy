/** The decision the capture binding's per-buffer generator callback takes,
    as a pure function of the fields it reads, and what a run of callbacks
    does to those fields. */
module CaptureCallback {
  import opened OdinNative

  datatype Option<T> = None | Some(value: T)

  /** A sample rate and channel count, as a capture device reports them or as
      a stream was negotiated with. */
  datatype Format = Format(sampleRate: int, channels: int)

  /** What one callback does with the buffer it is handed. */
  datatype CallbackOutcome =
    | Suppressed          // a reset is under way: the buffer is dropped
    | RecoveryScheduled   // the device format changed: recovery is queued
    | Pushed              // the buffer went into the stream
    | NoStream            // formats agree but there is no stream to feed

  /** The fields the callback reads and writes: the reset flag, the
      negotiated format, the stream handle and the recoveries queued. */
  datatype CallbackState =
    CallbackState(beingReset: bool, stream: Format, handle: Handle, pendingRecoveries: nat)

  /** The branch the callback takes, given the reset flag, the attached
      capture's current format (None when no capture is attached), the
      negotiated format and the stream handle. */
  function Decide(beingReset: bool, capture: Option<Format>, stream: Format, handle: Handle): (r: CallbackOutcome)
    ensures r == Suppressed <==> beingReset
    ensures r == RecoveryScheduled <==> !beingReset && capture.Some? && capture.value != stream
    ensures r == Pushed <==> !beingReset && (capture.None? || capture.value == stream) && handle != 0
    ensures r == NoStream <==> !beingReset && (capture.None? || capture.value == stream) && handle == 0
  {
    if beingReset then Suppressed
    else if capture.Some? && capture.value != stream then RecoveryScheduled
    else if handle != 0 then Pushed
    else NoStream
  }

  /** One callback: a mismatch raises the reset flag and queues one recovery;
      every other outcome leaves the fields as they were. */
  function Step(s: CallbackState, capture: Option<Format>): (r: (CallbackOutcome, CallbackState))
    ensures r.1.stream == s.stream && r.1.handle == s.handle
    ensures r.1.beingReset == (s.beingReset || r.0 == RecoveryScheduled)
    ensures r.1.pendingRecoveries == s.pendingRecoveries + (if r.0 == RecoveryScheduled then 1 else 0)
  {
    var outcome := Decide(s.beingReset, capture, s.stream, s.handle);
    if outcome == RecoveryScheduled then
      (outcome, s.(beingReset := true, pendingRecoveries := s.pendingRecoveries + 1))
    else
      (outcome, s)
  }

  /** A run of callbacks, the i-th seeing the capture format `captures[i]`:
      the outcome of each and the fields at the end. */
  function Replay(s: CallbackState, captures: seq<Option<Format>>): (r: (seq<CallbackOutcome>, CallbackState))
    ensures |r.0| == |captures|
    decreases |captures|
  {
    if captures == [] then ([], s)
    else
      var (outcome, next) := Step(s, captures[0]);
      var (rest, last) := Replay(next, captures[1..]);
      ([outcome] + rest, last)
  }

  /** While the reset flag is up, every callback drops its buffer, whatever
      the device reports, and nothing changes. */
  lemma {:induction false} ResettingDropsEverything(s: CallbackState, captures: seq<Option<Format>>)
    requires s.beingReset
    ensures Replay(s, captures).1 == s
    ensures forall i :: 0 <= i < |captures| ==> Replay(s, captures).0[i] == Suppressed
  {
    if captures != [] {
      ResettingDropsEverything(s, captures[1..]);
      var rest := Replay(s, captures[1..]).0;
      assert Replay(s, captures).0 == [Suppressed] + rest;
    }
  }

  /** Over any run of callbacks at most one recovery is queued: once one is,
      every later buffer is dropped (so none is pushed), and the flag and the
      queue record exactly whether it happened. */
  lemma {:induction false} RecoveryAtMostOnce(s: CallbackState, captures: seq<Option<Format>>)
    ensures var (outcomes, last) := Replay(s, captures);
      (forall i, j :: 0 <= i < j < |outcomes| && outcomes[i] == RecoveryScheduled ==> outcomes[j] == Suppressed) &&
      last.beingReset == (s.beingReset || RecoveryScheduled in outcomes) &&
      last.pendingRecoveries == s.pendingRecoveries + (if RecoveryScheduled in outcomes then 1 else 0) &&
      last.stream == s.stream && last.handle == s.handle
  {
    if captures == [] {
    } else {
      var (outcome, next) := Step(s, captures[0]);
      var (rest, last) := Replay(next, captures[1..]);
      var outcomes := [outcome] + rest;
      assert Replay(s, captures) == (outcomes, last);
      if outcome == RecoveryScheduled {
        ResettingDropsEverything(next, captures[1..]);
        forall i, j | 0 <= i < j < |outcomes| && outcomes[i] == RecoveryScheduled
          ensures outcomes[j] == Suppressed
        {
          assert outcomes[j] == rest[j - 1];
        }
        assert RecoveryScheduled in outcomes by { assert outcomes[0] == RecoveryScheduled; }
      } else {
        assert next == s;
        RecoveryAtMostOnce(next, captures[1..]);
        forall i, j | 0 <= i < j < |outcomes| && outcomes[i] == RecoveryScheduled
          ensures outcomes[j] == Suppressed
        {
          assert i > 0;
          assert outcomes[i] == rest[i - 1] && outcomes[j] == rest[j - 1];
        }
        assert (RecoveryScheduled in outcomes) == (RecoveryScheduled in rest);
      }
    }
  }

  /** A device change seen with the flag down is answered by exactly one
      recovery, and every buffer after it is dropped. */
  lemma MismatchRecoversOnce(s: CallbackState, f: Format, captures: seq<Option<Format>>)
    requires !s.beingReset && f != s.stream
    ensures var (outcomes, last) := Replay(s, [Some(f)] + captures);
      outcomes[0] == RecoveryScheduled &&
      (forall i :: 0 < i < |outcomes| ==> outcomes[i] == Suppressed) &&
      last == s.(beingReset := true, pendingRecoveries := s.pendingRecoveries + 1)
  {
    var all := [Some(f)] + captures;
    assert all[1..] == captures;
    var next := s.(beingReset := true, pendingRecoveries := s.pendingRecoveries + 1);
    ResettingDropsEverything(next, captures);
    var outcomes := Replay(s, all).0;
    forall i | 0 < i < |outcomes| ensures outcomes[i] == Suppressed {
      assert outcomes[i] == Replay(next, captures).0[i - 1];
    }
  }
}
