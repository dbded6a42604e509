/**
  The focus timer: a countdown that runs a 25-minute focus phase, asks the
  backend for an adaptive break when the focus phase ends, counts the break
  down, and returns to idle.

  The component keeps `time`, `isRunning`, `sessionId` and `recommendedBreak`
  itself and writes three flags that belong to the page through callbacks:
  `sessionActive`, `isBreak` and `paused`. The page's copy of the session id
  is written together with the component's own at every assignment, so the
  two are one field here. `isBreak` is modelled as a page that stores what
  `onBreakChange` sends; `ParentBreak` lets the page set it to anything, and
  `PageWithoutBreakFlagNeverRests` shows what a page that never sets it gets.

  The asynchronous API calls become parameters: the answer that the call
  would produce (a value, or a failure) is passed in. One run of the
  countdown effect (one second of the interval, or the completion when the
  countdown sits at zero) is one `Tick`.
*/
module Timer {
  import opened Optional

  /** A focus phase lasts 25 minutes. */
  const WorkSeconds: int := 25 * 60
  /** The initial recommended break, and the break taken when no recommendation arrives. */
  const FallbackBreakSeconds: int := 5 * 60

  type SessionId = string

  /** What `endSession` followed by `getRecommendedInterval` yields at the end of a focus phase. */
  datatype Completion = BreakRecommended(seconds: int) | RequestFailed

  /** The desktop notification shown on a phase change. */
  datatype Notice = NoNotice | BreakReady(minutes: int) | BreakOver

  function Max(a: int, b: int): int { if a < b then b else a }
  function Min(a: int, b: int): int { if a < b then a else b }

  /** `Math.round(seconds / 60)`: JavaScript rounds halves upwards. */
  function RoundedMinutes(seconds: int): (m: int)
    ensures m * 60 - 30 <= seconds < m * 60 + 30
  {
    (seconds + 30) / 60
  }

  /** The slider position: the nearest whole minute, clamped to [1, 60]. */
  function SliderMinutes(time: int): (m: int)
    ensures 1 <= m <= 60
    ensures 1 < m < 60 ==> m * 60 - 30 <= time < m * 60 + 30
    ensures m == 1 <==> time < 90
    ensures m == 60 <==> time >= 3570
  {
    Max(1, Min(60, RoundedMinutes(time)))
  }

  /**
    The seconds a slider position sets. The range input starts at 0.25
    minutes and steps by whole minutes up to 60, so it offers k + 0.25
    minutes for k in 0..59, and `handleSliderChange` turns that into
    60k + 15 seconds.
  */
  function SliderSeconds(steps: int): (seconds: int)
    ensures 0 <= steps ==> seconds % 60 == 15 && seconds / 60 == steps
  {
    steps * 60 + 15
  }

  /** After the slider is moved to position k, the displayed minutes are k (and 1 at the lowest position). */
  lemma SliderPositionShowsItsMinute(steps: int)
    requires 0 <= steps <= 59
    ensures SliderMinutes(SliderSeconds(steps)) == (if steps == 0 then 1 else steps)
  {
  }

  /** Everything the timer keeps or writes, as one value. */
  datatype TimerState = TimerState(
    time: int,
    isRunning: bool,
    sessionId: Option<SessionId>,
    recommendedBreak: int,
    sessionActive: bool,
    isBreak: bool,
    paused: bool)

  /** The state when the page is first shown. */
  const Initial := TimerState(WorkSeconds, false, None, FallbackBreakSeconds, false, false, false)

  /** True when completing now ends a focus phase (and asks for a break) rather than a break. */
  predicate EndsFocusPhase(s: TimerState)
  {
    !s.isBreak && Truthy(s.sessionId)
  }

  /** The state after `handleTimerComplete`. */
  function Completed(s: TimerState, outcome: Completion): TimerState
  {
    if EndsFocusPhase(s) then
      match outcome
      case BreakRecommended(b) =>
        s.(isRunning := false, recommendedBreak := b, time := b, isBreak := true, paused := true)
      case RequestFailed =>
        s.(isRunning := false, time := FallbackBreakSeconds, isBreak := true)
    else
      s.(isRunning := false, isBreak := false, time := WorkSeconds, sessionActive := false,
         paused := false, sessionId := None)
  }

  /** The notification `handleTimerComplete` shows. */
  function CompletionNotice(s: TimerState, outcome: Completion): Notice
  {
    if EndsFocusPhase(s) then
      match outcome
      case BreakRecommended(b) => BreakReady(RoundedMinutes(b))
      case RequestFailed => NoNotice
    else
      BreakOver
  }

  /** One run of the countdown effect: decrement while running, complete at zero. */
  function Ticked(s: TimerState, outcome: Completion): TimerState
  {
    if s.isRunning && s.time > 0 then s.(time := s.time - 1)
    else if s.time == 0 then Completed(s, outcome)
    else s
  }

  /** The state after `startTimer`, given what `api.startSession()` answers (`None`: it failed). */
  function Started(s: TimerState, reply: Option<SessionId>): TimerState
  {
    if s.isRunning then s
    else if s.isBreak then s.(paused := true, isRunning := true)
    else
      match reply
      case Some(id) => s.(sessionId := Some(id), sessionActive := true, paused := false, isRunning := true)
      case None => s.(isRunning := true)
  }

  function Paused(s: TimerState): TimerState
  {
    s.(isRunning := false, paused := true, sessionActive := false)
  }

  /** What `resetTimer` and `setTimer` share: stop, and forget the session, the break and the pause. */
  function Rearmed(s: TimerState, seconds: int): TimerState
  {
    s.(time := seconds, isBreak := false, isRunning := false, sessionActive := false,
       sessionId := None, paused := false)
  }

  /** The user's and the interval's actions on the timer. */
  datatype Event =
    | Tick(outcome: Completion)
    | Start(reply: Option<SessionId>)
    | Pause
    | Reset
    | SetTo(seconds: int)
    | Slide(steps: int)
    | ParentBreak(flag: bool)

  function Next(s: TimerState, e: Event): TimerState
  {
    match e
    case Tick(outcome) => Ticked(s, outcome)
    case Start(reply) => Started(s, reply)
    case Pause => Paused(s)
    case Reset => Rearmed(s, WorkSeconds)
    case SetTo(seconds) => Rearmed(s, seconds)
    case Slide(steps) => Rearmed(s, SliderSeconds(steps))
    case ParentBreak(flag) => s.(isBreak := flag)
  }

  /** The state after a sequence of events, first to last. */
  function Run(s: TimerState, events: seq<Event>): TimerState
    decreases |events|
  {
    if events == [] then s else Run(Next(s, events[0]), events[1..])
  }

  /** `n` runs of the countdown effect. */
  function Ticks(n: nat, outcome: Completion): (ticks: seq<Event>)
    ensures |ticks| == n && forall i :: 0 <= i < n ==> ticks[i] == Tick(outcome)
  {
    seq(n, _ => Tick(outcome))
  }

  /** Inputs the page and the backend can produce: no negative durations. */
  predicate NonNegativeInput(e: Event)
  {
    match e
    case Tick(outcome) => outcome.BreakRecommended? ==> outcome.seconds >= 0
    case SetTo(seconds) => seconds >= 0
    case Slide(steps) => steps >= 0
    case _ => true
  }

  /** A tick decrements by exactly one, and only while running above zero; at zero it completes. */
  lemma TickDecrementsOnlyWhileRunning(s: TimerState, outcome: Completion)
    ensures s.isRunning && s.time > 0 ==> Ticked(s, outcome) == s.(time := s.time - 1)
    ensures s.time == 0 ==> Ticked(s, outcome) == Completed(s, outcome) && !Ticked(s, outcome).isRunning
    ensures !s.isRunning && s.time != 0 ==> Ticked(s, outcome) == s
  {
  }

  /** The countdown never goes below zero, whatever the user does, as long as no negative duration is supplied. */
  lemma {:induction false} TimeStaysNonNegative(s: TimerState, events: seq<Event>)
    requires s.time >= 0
    requires forall i :: 0 <= i < |events| ==> NonNegativeInput(events[i])
    ensures Run(s, events).time >= 0
    decreases |events|
  {
    if events != [] {
      TimeStaysNonNegative(Next(s, events[0]), events[1..]);
    }
  }

  lemma {:induction false} RunAppend(s: TimerState, a: seq<Event>, b: seq<Event>)
    ensures Run(s, a + b) == Run(Run(s, a), b)
    decreases |a|
  {
    if a != [] {
      assert (a + b)[0] == a[0];
      assert (a + b)[1..] == a[1..] + b;
      RunAppend(Next(s, a[0]), a[1..], b);
    } else {
      assert a + b == b;
    }
  }

  /** A running countdown with at least `n` seconds left loses exactly `n` seconds in `n` ticks, and nothing else changes. */
  lemma {:induction false} CountDown(s: TimerState, n: nat, outcome: Completion)
    requires s.isRunning && s.time >= n
    ensures Run(s, Ticks(n, outcome)) == s.(time := s.time - n)
    decreases n
  {
    if n > 0 {
      var ticks := Ticks(n, outcome);
      assert ticks[0] == Tick(outcome);
      assert ticks[1..] == Ticks(n - 1, outcome);
      CountDown(s.(time := s.time - 1), n - 1, outcome);
    }
  }

  /**
    Starting from the initial state, a started focus phase runs 1500 seconds and then
    switches to the break the backend recommends, paused, with the same session.
  */
  lemma FocusPhaseEndsInRecommendedBreak(id: SessionId, seconds: int, unused: Completion)
    requires id != ""
    ensures Run(Initial, [Start(Some(id))] + Ticks(WorkSeconds, unused) + [Tick(BreakRecommended(seconds))])
         == TimerState(seconds, false, Some(id), seconds, true, true, true)
  {
    var started := Next(Initial, Start(Some(id)));
    RunAppend(Initial, [Start(Some(id))] + Ticks(WorkSeconds, unused), [Tick(BreakRecommended(seconds))]);
    RunAppend(Initial, [Start(Some(id))], Ticks(WorkSeconds, unused));
    CountDown(started, WorkSeconds, unused);
  }

  /** When the recommendation cannot be fetched the break still comes, 300 seconds long, but not paused. */
  lemma FocusPhaseFallsBackToDefaultBreak(id: SessionId, unused: Completion)
    requires id != ""
    ensures Run(Initial, [Start(Some(id))] + Ticks(WorkSeconds, unused) + [Tick(RequestFailed)])
         == TimerState(FallbackBreakSeconds, false, Some(id), FallbackBreakSeconds, true, true, false)
  {
    var started := Next(Initial, Start(Some(id)));
    RunAppend(Initial, [Start(Some(id))] + Ticks(WorkSeconds, unused), [Tick(RequestFailed)]);
    RunAppend(Initial, [Start(Some(id))], Ticks(WorkSeconds, unused));
    CountDown(started, WorkSeconds, unused);
  }

  /**
    A whole cycle: focus phase, recommended break, resumed break counted down,
    completion. The timer is back to idle: 1500 seconds, no session, no break,
    not paused, not active, stopped.
  */
  lemma FullCycleReturnsToIdle(id: SessionId, seconds: int, reply: Option<SessionId>, unused: Completion, last: Completion)
    requires id != "" && seconds >= 1
    ensures Run(Initial, [Start(Some(id))] + Ticks(WorkSeconds, unused) + [Tick(BreakRecommended(seconds)), Start(reply)]
                         + Ticks(seconds, unused) + [Tick(last)])
         == TimerState(WorkSeconds, false, None, seconds, false, false, false)
  {
    var focus := [Start(Some(id))] + Ticks(WorkSeconds, unused) + [Tick(BreakRecommended(seconds))];
    FocusPhaseEndsInRecommendedBreak(id, seconds, unused);
    var inBreak := Run(Initial, focus);
    var resumed := Next(inBreak, Start(reply));
    assert resumed == TimerState(seconds, true, Some(id), seconds, true, true, true);
    assert focus + [Start(reply)] + Ticks(seconds, unused) + [Tick(last)]
        == [Start(Some(id))] + Ticks(WorkSeconds, unused) + [Tick(BreakRecommended(seconds)), Start(reply)]
           + Ticks(seconds, unused) + [Tick(last)];
    RunAppend(Initial, focus + [Start(reply)] + Ticks(seconds, unused), [Tick(last)]);
    RunAppend(Initial, focus + [Start(reply)], Ticks(seconds, unused));
    RunAppend(Initial, focus, [Start(reply)]);
    CountDown(resumed, seconds, unused);
  }

  /**
    A page that passes no `isBreak` (so the flag reads false whatever the
    timer reports): the break's countdown is taken for a focus phase. A
    start during the break asks for a new session, and when that countdown
    ends the timer asks for another break instead of returning to idle.
  */
  lemma PageWithoutBreakFlagNeverRests(id: SessionId, seconds: int, id2: SessionId, next: int, unused: Completion)
    requires id != "" && id2 != "" && seconds >= 1
    ensures Run(Initial, [Start(Some(id))] + Ticks(WorkSeconds, unused)
                         + [Tick(BreakRecommended(seconds)), ParentBreak(false), Start(Some(id2))]
                         + Ticks(seconds, unused) + [Tick(BreakRecommended(next)), ParentBreak(false)])
         == TimerState(next, false, Some(id2), next, true, false, true)
  {
    var focus := [Start(Some(id))] + Ticks(WorkSeconds, unused) + [Tick(BreakRecommended(seconds))];
    FocusPhaseEndsInRecommendedBreak(id, seconds, unused);
    var restarted := Run(Initial, focus + [ParentBreak(false), Start(Some(id2))]);
    RunAppend(Initial, focus, [ParentBreak(false), Start(Some(id2))]);
    var inBreak := Run(Initial, focus);
    assert inBreak == TimerState(seconds, false, Some(id), seconds, true, true, true);
    var unflagged := Next(inBreak, ParentBreak(false));
    assert [ParentBreak(false), Start(Some(id2))][1..] == [Start(Some(id2))];
    assert Run(inBreak, [ParentBreak(false), Start(Some(id2))]) == Run(unflagged, [Start(Some(id2))]);
    assert Run(unflagged, [Start(Some(id2))]) == Next(unflagged, Start(Some(id2)));
    assert restarted == TimerState(seconds, true, Some(id2), seconds, true, false, false);
    var last := [Tick(BreakRecommended(next)), ParentBreak(false)];
    assert focus + [ParentBreak(false), Start(Some(id2))] + Ticks(seconds, unused) + last
        == [Start(Some(id))] + Ticks(WorkSeconds, unused)
           + [Tick(BreakRecommended(seconds)), ParentBreak(false), Start(Some(id2))]
           + Ticks(seconds, unused) + [Tick(BreakRecommended(next)), ParentBreak(false)];
    RunAppend(Initial, focus + [ParentBreak(false), Start(Some(id2))] + Ticks(seconds, unused), last);
    RunAppend(Initial, focus + [ParentBreak(false), Start(Some(id2))], Ticks(seconds, unused));
    CountDown(restarted, seconds, unused);
    var ended := restarted.(time := 0);
    assert last[1..] == [ParentBreak(false)];
    assert Run(ended, last) == Run(Next(ended, last[0]), [ParentBreak(false)]);
    assert Run(Next(ended, last[0]), [ParentBreak(false)]) == Next(Next(ended, last[0]), ParentBreak(false));
  }

  /** Reset and set-duration stop the countdown and forget the session; both are idempotent. */
  lemma RearmIsIdempotent(s: TimerState, seconds: int)
    ensures var r := Next(s, Reset);
      r.time == WorkSeconds && !r.isRunning && r.sessionId == None && !r.isBreak && !r.paused && !r.sessionActive
      && Next(r, Reset) == r
    ensures var t := Next(s, SetTo(seconds));
      t.time == seconds && !t.isRunning && t.sessionId == None && !t.isBreak && !t.paused && !t.sessionActive
      && Next(t, SetTo(seconds)) == t
  {
  }

  /** Outside a break every start, a resume after a pause included, adopts the new session id the backend hands out. */
  lemma ResumeStartsNewSession(s: TimerState, id: SessionId)
    requires !s.isBreak
    ensures Next(Paused(s), Start(Some(id))).sessionId == Some(id)
    ensures Next(Paused(s), Start(Some(id))).time == s.time
  {
  }

  /** The timer as the component holds it. */
  class PomodoroTimer {
    var time: int
    var isRunning: bool
    var sessionId: Option<SessionId>
    var recommendedBreak: int
    // Written through the page's callbacks.
    var sessionActive: bool
    var isBreak: bool
    var paused: bool

    function State(): TimerState
      reads this
    {
      TimerState(time, isRunning, sessionId, recommendedBreak, sessionActive, isBreak, paused)
    }

    constructor ()
      ensures State() == Initial
    {
      time := WorkSeconds;
      isRunning := false;
      sessionId := None;
      recommendedBreak := FallbackBreakSeconds;
      sessionActive := false;
      isBreak := false;
      paused := false;
    }

    /** `handleTimerComplete`, with the outcome of its two server calls. */
    method HandleTimerComplete(outcome: Completion) returns (notice: Notice)
      modifies this
      ensures State() == Completed(old(State()), outcome)
      ensures notice == CompletionNotice(old(State()), outcome)
      ensures !isRunning
      ensures old(EndsFocusPhase(State())) && outcome.BreakRecommended? ==>
        time == outcome.seconds && recommendedBreak == outcome.seconds && isBreak && paused
        && sessionId == old(sessionId) && sessionActive == old(sessionActive)
      ensures old(EndsFocusPhase(State())) && outcome.RequestFailed? ==>
        time == FallbackBreakSeconds && isBreak && paused == old(paused)
        && recommendedBreak == old(recommendedBreak) && sessionId == old(sessionId)
      ensures !old(EndsFocusPhase(State())) ==>
        time == WorkSeconds && sessionId == None && !sessionActive && !paused && !isBreak
        && recommendedBreak == old(recommendedBreak)
    {
      isRunning := false;
      if !isBreak && Truthy(sessionId) {
        match outcome {
          case BreakRecommended(seconds) =>
            recommendedBreak := seconds;
            time := seconds;
            isBreak := true;
            paused := true;
            notice := BreakReady(RoundedMinutes(seconds));
          case RequestFailed =>
            time := FallbackBreakSeconds;
            isBreak := true;
            notice := NoNotice;
        }
      } else {
        isBreak := false;
        time := WorkSeconds;
        sessionActive := false;
        paused := false;
        sessionId := None;
        notice := BreakOver;
      }
    }

    /** One run of the countdown effect: one second off while running, or the completion at zero. */
    method Tick(outcome: Completion) returns (notice: Notice)
      modifies this
      ensures State() == Ticked(old(State()), outcome)
      ensures old(isRunning && time > 0) ==> time == old(time) - 1 && notice == NoNotice
      ensures old(time) == 0 ==> !isRunning && notice == CompletionNotice(old(State()), outcome)
    {
      if isRunning && time > 0 {
        time := time - 1;
        notice := NoNotice;
      } else if time == 0 {
        notice := HandleTimerComplete(outcome);
      } else {
        notice := NoNotice;
      }
    }

    /** `startTimer`, with what `api.startSession()` answers (`None`: the request failed). */
    method StartTimer(reply: Option<SessionId>)
      modifies this
      ensures State() == Started(old(State()), reply)
      ensures old(isRunning) ==> State() == old(State())
      ensures isRunning && time == old(time) && isBreak == old(isBreak)
      ensures !old(isRunning) && !isBreak && reply.Some? ==>
        sessionId == reply && sessionActive && !paused
      ensures !old(isRunning) && !isBreak && reply.None? ==>
        sessionId == old(sessionId) && sessionActive == old(sessionActive) && paused == old(paused)
      ensures !old(isRunning) && isBreak ==> paused && sessionId == old(sessionId)
    {
      if !isRunning {
        if !isBreak {
          match reply {
            case Some(id) =>
              sessionId := Some(id);
              sessionActive := true;
              paused := false;
              isRunning := true;
            case None =>
              isRunning := true;
          }
        } else {
          paused := true;
          isRunning := true;
        }
      }
    }

    /** `pauseTimer`. */
    method PauseTimer()
      modifies this
      ensures State() == Paused(old(State()))
      ensures !isRunning && paused && !sessionActive
      ensures time == old(time) && sessionId == old(sessionId) && isBreak == old(isBreak)
    {
      isRunning := false;
      paused := true;
      sessionActive := false;
    }

    /** `resetTimer`. */
    method ResetTimer()
      modifies this
      ensures State() == Rearmed(old(State()), WorkSeconds)
      ensures time == WorkSeconds && !isRunning && sessionId == None
      ensures !isBreak && !paused && !sessionActive && recommendedBreak == old(recommendedBreak)
    {
      isRunning := false;
      isBreak := false;
      time := WorkSeconds;
      sessionActive := false;
      sessionId := None;
      paused := false;
    }

    /** `setTimer`: a custom duration, which also leaves any session. */
    method SetTimer(seconds: int)
      modifies this
      ensures State() == Rearmed(old(State()), seconds)
      ensures time == seconds && !isRunning && sessionId == None
      ensures !isBreak && !paused && !sessionActive && recommendedBreak == old(recommendedBreak)
    {
      time := seconds;
      isBreak := false;
      isRunning := false;
      sessionActive := false;
      sessionId := None;
      paused := false;
    }

    /** `handleSliderChange` for the slider at position `steps`, that is at `steps` + 0.25 minutes. */
    method HandleSliderChange(steps: int)
      modifies this
      ensures State() == Rearmed(old(State()), SliderSeconds(steps))
      ensures time == steps * 60 + 15 && !isRunning && sessionId == None
    {
      SetTimer(steps * 60 + 15);
    }

    /** The page sets the `isBreak` prop it passes in. */
    method SetBreakFlag(flag: bool)
      modifies this
      ensures State() == old(State()).(isBreak := flag)
    {
      isBreak := flag;
    }

    /** Any event, applied to the component. */
    method Apply(e: Event)
      modifies this
      ensures State() == Next(old(State()), e)
    {
      match e {
        case Tick(outcome) => var _ := Tick(outcome);
        case Start(reply) => StartTimer(reply);
        case Pause => PauseTimer();
        case Reset => ResetTimer();
        case SetTo(seconds) => SetTimer(seconds);
        case Slide(steps) => HandleSliderChange(steps);
        case ParentBreak(flag) => SetBreakFlag(flag);
      }
    }
  }
}
