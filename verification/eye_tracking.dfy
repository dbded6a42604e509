/**
  The eye-tracking panel of the page: it decides from the page's session id,
  active flag and paused flag whether to ask the backend to start or to stop
  gaze tracking, and it shows the status and percentage of each gaze event.

  The replies of the two HTTP requests are parameters.
*/
module EyeTracking {
  import opened Optional

  /** What the control effect does when one of its inputs changes. */
  datatype Control = NoAction | BeginTracking | EndTracking

  /** The control effect: nothing without a session; otherwise track exactly while active and not paused. */
  function TrackingControl(sessionId: Option<string>, isActive: bool, isPaused: bool): (c: Control)
    ensures c == NoAction <==> !Truthy(sessionId)
    ensures c == BeginTracking <==> Truthy(sessionId) && isActive && !isPaused
    ensures c == EndTracking <==> Truthy(sessionId) && !(isActive && !isPaused)
  {
    if !Truthy(sessionId) then NoAction
    else if isActive && !isPaused then BeginTracking
    else EndTracking
  }

  /** The reply to `POST /api/start_tracking`. */
  datatype StartReply =
    | Accepted                       // response.ok
    | Rejected(message: Option<string>) // a non-2xx status, with the body's `message`
    | Unreachable                    // fetch or JSON parsing threw

  const FocusedLabel: string := "Focused ✓"
  const UnfocusedLabel: string := "Not Focused ✗"
  const WaitingLabel: string := "Waiting..."
  const RejectedDefault: string := "Failed to start tracking"
  const UnreachableMessage: string := "Failed to connect to backend"

  /** The error shown for a rejected start: the body's message, unless it is missing or empty. */
  function RejectionMessage(message: Option<string>): (shown: string)
    ensures message.Some? && message.value != "" ==> shown == message.value
    ensures message.None? || message == Some("") ==> shown == RejectedDefault
  {
    if message.Some? && message.value != "" then message.value else RejectedDefault
  }

  class TrackingPanel {
    var trackingActive: bool
    var focusPercentage: real
    var currentStatus: string
    var error: Option<string>

    constructor ()
      ensures !trackingActive && focusPercentage == 0.0 && currentStatus == WaitingLabel && error == None
    {
      trackingActive := false;
      focusPercentage := 0.0;
      currentStatus := WaitingLabel;
      error := None;
    }

    /** `handleGaze`: the status follows `is_focused`, the percentage is copied as it arrives. */
    method HandleGaze(isFocused: bool, percentage: real)
      modifies this
      ensures currentStatus == (if isFocused then FocusedLabel else UnfocusedLabel)
      ensures focusPercentage == percentage
      ensures trackingActive == old(trackingActive) && error == old(error)
    {
      currentStatus := if isFocused then FocusedLabel else UnfocusedLabel;
      focusPercentage := percentage;
    }

    /** `startTracking`, with the reply the backend gives. */
    method StartTracking(sessionId: Option<string>, reply: StartReply)
      modifies this
      ensures currentStatus == old(currentStatus) && focusPercentage == old(focusPercentage)
      ensures !Truthy(sessionId) ==> trackingActive == old(trackingActive) && error == old(error)
      ensures Truthy(sessionId) && reply.Accepted? ==> trackingActive && error == None
      ensures Truthy(sessionId) && reply.Rejected? ==>
        trackingActive == old(trackingActive) && error == Some(RejectionMessage(reply.message))
      ensures Truthy(sessionId) && reply.Unreachable? ==>
        trackingActive == old(trackingActive) && error == Some(UnreachableMessage)
    {
      if !Truthy(sessionId) {
        return;
      }
      error := None;
      match reply {
        case Accepted =>
          trackingActive := true;
        case Rejected(message) =>
          error := Some(RejectionMessage(message));
        case Unreachable =>
          error := Some(UnreachableMessage);
      }
    }

    /** `stopTracking`: the flag drops once the request completes; a failed request changes nothing. */
    method StopTracking(completed: bool)
      modifies this
      ensures trackingActive == (if completed then false else old(trackingActive))
      ensures error == old(error) && currentStatus == old(currentStatus) && focusPercentage == old(focusPercentage)
    {
      if completed {
        trackingActive := false;
      }
    }

    /** The control effect, run when the session id, the active flag or the paused flag changes. */
    method OnControlInputs(sessionId: Option<string>, isActive: bool, isPaused: bool,
                           startReply: StartReply, stopCompleted: bool)
      modifies this
      ensures currentStatus == old(currentStatus) && focusPercentage == old(focusPercentage)
      ensures TrackingControl(sessionId, isActive, isPaused) == NoAction ==>
        trackingActive == old(trackingActive) && error == old(error)
      ensures TrackingControl(sessionId, isActive, isPaused) == BeginTracking ==>
        && trackingActive == (startReply.Accepted? || old(trackingActive))
        && error == (match startReply
                     case Accepted => None
                     case Rejected(message) => Some(RejectionMessage(message))
                     case Unreachable => Some(UnreachableMessage))
      ensures TrackingControl(sessionId, isActive, isPaused) == EndTracking ==>
        trackingActive == (!stopCompleted && old(trackingActive)) && error == old(error)
    {
      match TrackingControl(sessionId, isActive, isPaused) {
        case NoAction =>
        case BeginTracking => StartTracking(sessionId, startReply);
        case EndTracking => StopTracking(stopCompleted);
      }
    }
  }
}
