/**
  The per-second focus sampler of the gaze tracker.

  The tracker reads camera frames in a loop. For every frame it decides
  whether the user looks at the screen (the landmark geometry of
  `detect_gaze_focus` is an input here: a frame carries `Some(focused)` when
  a face was found and `None` when none was). At most once per elapsed
  second it counts a check, counts it as focused when the frame was, and
  emits a `gaze_update` event carrying the running focus percentage.

  The clock (`time.time()`) is a real number of seconds carried by each
  frame. The frames a call handles are those the camera delivers before a
  read fails; the camera itself is reduced to whether it is open.
*/
module GazeTracker {
  import opened Optional

  /** `cap`: no capture object, an opened one, or one that failed to open. */
  datatype Camera = NoCamera | Opened | Unopened

  /** One camera frame: when it was processed and what the face mesh found. */
  datatype Frame = Frame(now: real, face: Option<bool>)

  /** A frame without a detected face counts as unfocused. */
  predicate Focused(f: Frame)
  {
    f.face == Some(true)
  }

  /** The counters the tracker keeps across frames. */
  datatype Counters = Counters(focused: nat, total: nat, lastCheck: real)

  /** The event the tracker emits on each check. */
  datatype GazeUpdate = GazeUpdate(sessionId: string, isFocused: bool, focusPercentage: real)

  /** A check is due once at least one second has passed since the last one. */
  predicate Due(c: Counters, now: real)
  {
    now - c.lastCheck >= 1.0
  }

  /** The running percentage: focused checks over all checks, times 100, and 0 before any check. */
  function FocusPercentage(focused: nat, total: nat): (p: real)
    ensures 0.0 <= p
    ensures focused <= total ==> p <= 100.0
    ensures total == 0 ==> p == 0.0
    ensures total > 0 ==> p * (total as real) == 100.0 * (focused as real)
  {
    if total > 0 then (focused as real) / (total as real) * 100.0 else 0.0
  }

  /** The counters after one frame: a check when one is due, nothing otherwise. */
  function Sampled(c: Counters, f: Frame): Counters
  {
    if Due(c, f.now) then Counters(c.focused + (if Focused(f) then 1 else 0), c.total + 1, f.now)
    else c
  }

  /** The counters after a sequence of frames, first to last. */
  function Replay(c: Counters, frames: seq<Frame>): Counters
    decreases |frames|
  {
    if frames == [] then c
    else Sampled(Replay(c, frames[..|frames| - 1]), frames[|frames| - 1])
  }

  /** The update a check emits, computed from the counters after the check. */
  function UpdateAfter(sessionId: string, after: Counters, f: Frame): GazeUpdate
  {
    GazeUpdate(sessionId, Focused(f), FocusPercentage(after.focused, after.total))
  }

  /** The updates emitted while the frames are handled, in order. */
  function Emitted(c: Counters, sessionId: string, frames: seq<Frame>): seq<GazeUpdate>
    decreases |frames|
  {
    if frames == [] then []
    else
      var before := Replay(c, frames[..|frames| - 1]);
      var last := frames[|frames| - 1];
      Emitted(c, sessionId, frames[..|frames| - 1])
        + if Due(before, last.now) then [UpdateAfter(sessionId, Sampled(before, last), last)] else []
  }

  /** A check adds exactly one to the total, one to the focused count exactly when the frame is focused, and moves the clock; otherwise nothing changes. */
  lemma CheckCountsOnce(c: Counters, f: Frame)
    ensures Due(c, f.now) ==>
      Sampled(c, f).total == c.total + 1 && Sampled(c, f).lastCheck == f.now
      && (Sampled(c, f).focused == c.focused + 1 <==> Focused(f))
      && (Sampled(c, f).focused == c.focused <==> !Focused(f))
    ensures !Due(c, f.now) ==> Sampled(c, f) == c
    ensures f.face.None? ==> Sampled(c, f).focused == c.focused
  {
  }

  /** No sequence of frames can make the focused count exceed the number of checks. */
  lemma {:induction false} FocusedNeverExceedsChecks(c: Counters, frames: seq<Frame>)
    requires c.focused <= c.total
    ensures Replay(c, frames).focused <= Replay(c, frames).total
    decreases |frames|
  {
    if frames != [] {
      FocusedNeverExceedsChecks(c, frames[..|frames| - 1]);
    }
  }

  /** Checks are at least a second apart: the number of checks never exceeds the seconds the check clock advanced. */
  lemma {:induction false} AtMostOneCheckPerSecond(c: Counters, frames: seq<Frame>)
    ensures c.total <= Replay(c, frames).total
    ensures (Replay(c, frames).total - c.total) as real <= Replay(c, frames).lastCheck - c.lastCheck
    decreases |frames|
  {
    if frames != [] {
      AtMostOneCheckPerSecond(c, frames[..|frames| - 1]);
    }
  }

  /** One update per check, each with a percentage in [0, 100] and the session it was started for. */
  lemma {:induction false} OneUpdatePerCheck(c: Counters, sessionId: string, frames: seq<Frame>)
    requires c.focused <= c.total
    ensures |Emitted(c, sessionId, frames)| == Replay(c, frames).total - c.total
    ensures forall u :: u in Emitted(c, sessionId, frames) ==>
      u.sessionId == sessionId && 0.0 <= u.focusPercentage <= 100.0
    decreases |frames|
  {
    if frames != [] {
      var init := frames[..|frames| - 1];
      OneUpdatePerCheck(c, sessionId, init);
      AtMostOneCheckPerSecond(c, init);
      FocusedNeverExceedsChecks(c, init);
    }
  }

  class Tracker {
    var camera: Camera
    var isRunning: bool
    var lastCheckTime: real
    var focusedCount: nat
    var totalChecks: nat

    ghost predicate Valid()
      reads this
    {
      focusedCount <= totalChecks
    }

    function Counts(): Counters
      reads this
    {
      Counters(focusedCount, totalChecks, lastCheckTime)
    }

    /** The tracker as built: no camera, not running, no checks, the check clock at the creation time. */
    constructor (now: real)
      ensures Valid()
      ensures camera == NoCamera && !isRunning && Counts() == Counters(0, 0, now)
    {
      camera := NoCamera;
      isRunning := false;
      lastCheckTime := now;
      focusedCount := 0;
      totalChecks := 0;
    }

    /** `start`: (re)opens the camera unless it is open; the counters are not touched. */
    method Start(cameraOpens: bool) returns (ok: bool)
      modifies this
      ensures Counts() == old(Counts())
      ensures old(camera) == Opened ==> ok && camera == Opened
      ensures old(camera) != Opened ==> ok == cameraOpens && camera == (if cameraOpens then Opened else Unopened)
      ensures isRunning == (ok || old(isRunning))
    {
      if camera != Opened {
        camera := if cameraOpens then Opened else Unopened;
        if !cameraOpens {
          return false;
        }
      }
      isRunning := true;
      return true;
    }

    /** `stop`: ends the frame loop and releases the camera; the counters are not touched. */
    method Stop()
      modifies this
      ensures !isRunning && camera == NoCamera
      ensures Counts() == old(Counts())
    {
      isRunning := false;
      camera := NoCamera;
    }

    /** The check block of the frame loop, for one frame. */
    method Sample(sessionId: string, frame: Frame) returns (update: Option<GazeUpdate>)
      requires Valid()
      modifies this
      ensures Valid()
      ensures Counts() == Sampled(old(Counts()), frame)
      ensures camera == old(camera) && isRunning == old(isRunning)
      ensures old(Due(Counts(), frame.now)) ==>
        && totalChecks == old(totalChecks) + 1
        && focusedCount == old(focusedCount) + (if Focused(frame) then 1 else 0)
        && lastCheckTime == frame.now
        && update == Some(UpdateAfter(sessionId, Counts(), frame))
      ensures !old(Due(Counts(), frame.now)) ==> Counts() == old(Counts()) && update == None
    {
      var isFocused := frame.face == Some(true);
      if frame.now - lastCheckTime >= 1.0 {
        totalChecks := totalChecks + 1;
        if isFocused {
          focusedCount := focusedCount + 1;
        }
        var percentage := if totalChecks > 0 then (focusedCount as real) / (totalChecks as real) * 100.0 else 0.0;
        update := Some(GazeUpdate(sessionId, isFocused, percentage));
        lastCheckTime := frame.now;
      } else {
        update := None;
      }
    }

    /**
      `generate_frames`: starts the camera, then handles the frames it
      delivers, returning the `gaze_update` events emitted. The loop leaves
      the camera open and the tracker running.
    */
    method GenerateFrames(sessionId: string, cameraOpens: bool, frames: seq<Frame>)
      returns (started: bool, updates: seq<GazeUpdate>)
      requires Valid()
      modifies this
      ensures Valid()
      ensures started == (old(camera) == Opened || cameraOpens)
      ensures !started ==> Counts() == old(Counts()) && updates == []
      ensures started ==>
        Counts() == Replay(old(Counts()), frames) && updates == Emitted(old(Counts()), sessionId, frames)
      ensures camera == (if started then Opened else Unopened)
      ensures isRunning == (started || old(isRunning))
    {
      started := Start(cameraOpens);
      updates := [];
      if !started {
        return;
      }
      ghost var initial := Counts();
      var i := 0;
      while i < |frames|
        invariant 0 <= i <= |frames|
        invariant Valid()
        invariant Counts() == Replay(initial, frames[..i])
        invariant updates == Emitted(initial, sessionId, frames[..i])
        invariant camera == Opened && isRunning
      {
        assert frames[..i + 1][..i] == frames[..i];
        var update := Sample(sessionId, frames[i]);
        if update.Some? {
          updates := updates + [update.value];
        }
        i := i + 1;
      }
      assert frames[..|frames|] == frames;
    }
  }
}
