/**
  The session backend: a table of sessions, a log of eye-activity samples,
  the four request handlers that read and write them, and the adaptive
  break ladder.

  The database becomes two fields of a class: `sessions`, a map from session
  id to its row, and `eyeActivity`, the sample rows in insertion order. The
  random session id and the current time are parameters of the handlers.
  Times are whole microseconds, the resolution of Python's `datetime`.
  Focus scores are kept as exact fractions and compared with the ladder's
  thresholds by cross-multiplication (`5 * focused >= 4 * total` is
  `score >= 0.8`).
*/
module Backend {
  import opened Optional

  type SessionId = string

  /** A point in time, in microseconds. */
  type Instant = int

  const MicrosPerSecond: int := 1000000
  /** `row['duration'] or 1500`: the duration assumed for a session that never ended. */
  const DefaultDuration: int := 1500

  /** A fraction num/den; the score column holds such a value. */
  datatype Ratio = Ratio(num: nat, den: nat)

  /** A focus score: a fraction with a positive denominator. */
  type Score = r: Ratio | r.den > 0 witness Ratio(0, 1)

  /** The column default, 0. */
  const ZeroScore: Score := Ratio(0, 1)
  /** The 0.5 that `or 0.5` substitutes. */
  const HalfScore: Score := Ratio(1, 2)

  /** score >= p/q */
  predicate AtLeast(score: Score, p: nat, q: nat)
  {
    q * score.num >= p * score.den
  }

  /** a <= b as fractions */
  predicate NoGreater(a: Score, b: Score)
  {
    a.num * b.den <= b.num * a.den
  }

  datatype SessionRow = SessionRow(
    startTime: Instant,
    endTime: Option<Instant>,
    duration: Option<int>,
    score: Score)

  datatype ActivityRow = ActivityRow(sessionId: SessionId, timestamp: Instant, gazeFocused: bool)

  /** The row `start_session` inserts: only the id and the start time are given. */
  function NewRow(now: Instant): SessionRow
  {
    SessionRow(now, None, None, ZeroScore)
  }

  /** `COUNT(*)` and the sum of focused samples over one session's rows. */
  datatype Tally = Tally(focused: nat, total: nat)

  function CountActivity(rows: seq<ActivityRow>, id: SessionId): (t: Tally)
    ensures t.focused <= t.total <= |rows|
    decreases |rows|
  {
    if rows == [] then Tally(0, 0)
    else
      var rest := CountActivity(rows[1..], id);
      if rows[0].sessionId != id then rest
      else Tally(rest.focused + (if rows[0].gazeFocused then 1 else 0), rest.total + 1)
  }

  /** Appending a sample counts it for its own session and for no other. */
  lemma {:induction false} CountAfterAppend(rows: seq<ActivityRow>, row: ActivityRow, id: SessionId)
    ensures var before := CountActivity(rows, id);
      CountActivity(rows + [row], id) ==
        if row.sessionId == id
        then Tally(before.focused + (if row.gazeFocused then 1 else 0), before.total + 1)
        else before
    decreases |rows|
  {
    if rows == [] {
      assert [] + [row] == [row];
      assert [row][1..] == [];
    } else {
      assert (rows + [row])[0] == rows[0];
      assert (rows + [row])[1..] == rows[1..] + [row];
      CountAfterAppend(rows[1..], row, id);
    }
  }

  /** The eye-activity score `end_session` stores: focused over total, 0 when there are no samples. */
  function FocusScore(rows: seq<ActivityRow>, id: SessionId): (score: Score)
    ensures score.num <= score.den
    ensures CountActivity(rows, id).total == 0 ==> score.num == 0
  {
    var t := CountActivity(rows, id);
    if t.total > 0 then Ratio(t.focused, t.total) else ZeroScore
  }

  /** `int(timedelta.total_seconds())`: whole seconds, truncated toward zero. */
  function WholeSeconds(micros: int): (seconds: int)
    ensures micros >= 0 ==> 0 <= seconds && seconds * MicrosPerSecond <= micros < (seconds + 1) * MicrosPerSecond
    ensures micros < 0 ==> seconds <= 0 && (seconds - 1) * MicrosPerSecond < micros <= seconds * MicrosPerSecond
  {
    if micros >= 0 then micros / MicrosPerSecond else -((-micros) / MicrosPerSecond)
  }

  /** `row['eye_activity_score'] or 0.5`: a zero score is falsy and reads as one half. */
  function EffectiveScore(stored: Score): (score: Score)
    ensures score.num > 0
    ensures stored.num == 0 ==> score == HalfScore
    ensures stored.num > 0 ==> score == stored
  {
    if stored.num == 0 then HalfScore else stored
  }

  /** The break ladder: the better the focus, the shorter the break. */
  function BreakSeconds(score: Score): (seconds: int)
    ensures seconds in {180, 300, 420, 600}
  {
    if AtLeast(score, 4, 5) then 180
    else if AtLeast(score, 3, 5) then 300
    else if AtLeast(score, 2, 5) then 420
    else 600
  }

  /** The break `recommend_interval` answers for a stored row. */
  function RecommendedBreak(row: SessionRow): (seconds: int)
    ensures seconds in {180, 300, 420, 600}
  {
    BreakSeconds(EffectiveScore(row.score))
  }

  lemma MulMonotone(x: int, y: int, c: nat)
    requires x <= y
    ensures c * x <= c * y
  {
  }

  lemma CancelPositive(x: int, y: int, c: int)
    requires c > 0 && x * c >= y * c
    ensures x >= y
  {
  }

  /** A threshold that one score reaches, every score at least as high reaches. */
  lemma AtLeastIsUpwardClosed(a: Score, b: Score, p: nat, q: nat)
    requires NoGreater(a, b) && AtLeast(a, p, q)
    ensures AtLeast(b, p, q)
  {
    MulMonotone(a.num * b.den, b.num * a.den, q);
    MulMonotone(p * a.den, q * a.num, b.den);
    assert (q * b.num) * a.den >= (p * b.den) * a.den by {
      assert (q * b.num) * a.den == q * (b.num * a.den);
      assert q * (a.num * b.den) == b.den * (q * a.num);
      assert (p * b.den) * a.den == b.den * (p * a.den);
    }
    CancelPositive(q * b.num, p * b.den, a.den);
  }

  /** The recommended break never grows as the focus score grows. */
  lemma BreakShrinksAsFocusGrows(a: Score, b: Score)
    requires NoGreater(a, b)
    ensures BreakSeconds(b) <= BreakSeconds(a)
  {
    if AtLeast(a, 4, 5) { AtLeastIsUpwardClosed(a, b, 4, 5); }
    if AtLeast(a, 3, 5) { AtLeastIsUpwardClosed(a, b, 3, 5); }
    if AtLeast(a, 2, 5) { AtLeastIsUpwardClosed(a, b, 2, 5); }
  }

  /** The ladder's steps: at least 0.8, 0.6, 0.4, and below. */
  lemma LadderSteps(score: Score)
    ensures 5 * score.num >= 4 * score.den ==> BreakSeconds(score) == 180
    ensures 5 * score.num < 4 * score.den && 5 * score.num >= 3 * score.den ==> BreakSeconds(score) == 300
    ensures 5 * score.num < 3 * score.den && 5 * score.num >= 2 * score.den ==> BreakSeconds(score) == 420
    ensures 5 * score.num < 2 * score.den ==> BreakSeconds(score) == 600
  {
  }

  /** The stored duration is read by `recommend_interval` but plays no part in the break. */
  lemma DurationIsIgnored(row: SessionRow, d: Option<int>)
    ensures RecommendedBreak(row.(duration := d)) == RecommendedBreak(row)
  {
  }

  /**
    A stored score of zero (no samples, or no focused sample, or a session
    that never ended) is replaced by 0.5, so it gets 420 seconds, not 600.
  */
  lemma UnfocusedSessionGetsModerateBreak(row: SessionRow)
    requires row.score.num == 0
    ensures RecommendedBreak(row) == 420
  {
  }

  /** The reply of a handler: a body, or an HTTP error status with its message. */
  datatype Reply<T> = Ok(value: T) | Err(status: int, message: string)

  datatype StartReply = StartReply(sessionId: SessionId, startTime: Instant)
  datatype EndReply = EndReply(sessionId: SessionId, endTime: Instant, duration: int, score: Score)
  datatype LogReply = LogReply(timestamp: Instant)
  datatype RecommendReply = RecommendReply(sessionId: SessionId, seconds: int, score: Score)

  class Database {
    var sessions: map<SessionId, SessionRow>
    var eyeActivity: seq<ActivityRow>

    constructor ()
      ensures sessions == map[] && eyeActivity == []
    {
      sessions := map[];
      eyeActivity := [];
    }

    /** `start_session`, with the fresh uuid and the clock as parameters. */
    method StartSession(newId: SessionId, now: Instant) returns (reply: Reply<StartReply>)
      modifies this
      ensures newId !in old(sessions) ==>
        reply == Ok(StartReply(newId, now)) && sessions == old(sessions)[newId := NewRow(now)]
      ensures newId in old(sessions) ==> reply.Err? && reply.status == 500 && sessions == old(sessions)
      ensures eyeActivity == old(eyeActivity)
    {
      if newId in sessions {
        // the primary key already exists: the INSERT raises
        reply := Err(500, "Internal Server Error");
      } else {
        sessions := sessions[newId := NewRow(now)];
        reply := Ok(StartReply(newId, now));
      }
    }

    /** `end_session`: closes one session with its duration and focus score. */
    method EndSession(body: Option<SessionId>, now: Instant) returns (reply: Reply<EndReply>)
      modifies this
      ensures eyeActivity == old(eyeActivity)
      ensures !Truthy(body) ==> reply == Err(400, "session_id required") && sessions == old(sessions)
      ensures Truthy(body) && body.value !in old(sessions) ==>
        reply == Err(404, "Session not found") && sessions == old(sessions)
      ensures Truthy(body) && body.value in old(sessions) ==>
        var id := body.value;
        var row := old(sessions)[id];
        var duration := WholeSeconds(now - row.startTime);
        var score := FocusScore(eyeActivity, id);
        && sessions == old(sessions)[id := row.(endTime := Some(now), duration := Some(duration), score := score)]
        && reply == Ok(EndReply(id, now, duration, score))
    {
      if !Truthy(body) {
        reply := Err(400, "session_id required");
        return;
      }
      var id := body.value;
      if id !in sessions {
        reply := Err(404, "Session not found");
        return;
      }
      var row := sessions[id];
      var duration := WholeSeconds(now - row.startTime);
      var score := FocusScore(eyeActivity, id);
      sessions := sessions[id := row.(endTime := Some(now), duration := Some(duration), score := score)];
      reply := Ok(EndReply(id, now, duration, score));
    }

    /** `log_eye_activity`: appends one sample; the session is not looked up. */
    method LogEyeActivity(body: Option<SessionId>, gazeFocused: Option<bool>, now: Instant)
      returns (reply: Reply<LogReply>)
      modifies this
      ensures sessions == old(sessions)
      ensures !Truthy(body) ==> reply == Err(400, "session_id required") && eyeActivity == old(eyeActivity)
      ensures Truthy(body) ==>
        reply == Ok(LogReply(now))
        && eyeActivity == old(eyeActivity) + [ActivityRow(body.value, now, gazeFocused == Some(true))]
    {
      // data.get('gaze_focused', False): absent reads as False
      var focused := gazeFocused == Some(true);
      if !Truthy(body) {
        reply := Err(400, "session_id required");
        return;
      }
      eyeActivity := eyeActivity + [ActivityRow(body.value, now, focused)];
      reply := Ok(LogReply(now));
    }

    /** `recommend_interval`: reads one row and maps its score onto the ladder. */
    method RecommendInterval(id: SessionId) returns (reply: Reply<RecommendReply>)
      ensures id !in sessions ==> reply == Err(404, "Session not found")
      ensures id in sessions ==>
        && reply.Ok?
        && reply.value.seconds == RecommendedBreak(sessions[id])
        && reply.value.seconds in {180, 300, 420, 600}
        && reply.value.score.num > 0
        && (sessions[id].score.num > 0 ==> reply.value.score == sessions[id].score)
      ensures id in sessions ==>
        reply == Ok(RecommendReply(id, RecommendedBreak(sessions[id]), EffectiveScore(sessions[id].score)))
    {
      if id !in sessions {
        reply := Err(404, "Session not found");
        return;
      }
      var row := sessions[id];
      var score := EffectiveScore(row.score);
      // read, and never used by the ladder
      var duration := if row.duration.Some? && row.duration.value != 0 then row.duration.value else DefaultDuration;
      var seconds := BreakSeconds(score);
      reply := Ok(RecommendReply(id, seconds, score));
    }
  }

  /**
    The score `end_session` computes for a session grows by one sample for
    every sample logged for it: a logged focused sample raises both counts, an
    unfocused one only the total.
  */
  lemma LoggedSampleEntersScore(rows: seq<ActivityRow>, id: SessionId, now: Instant, focused: bool)
    ensures var before := CountActivity(rows, id);
      var after := CountActivity(rows + [ActivityRow(id, now, focused)], id);
      after.total == before.total + 1 && after.focused == before.focused + (if focused then 1 else 0)
  {
    CountAfterAppend(rows, ActivityRow(id, now, focused), id);
  }
}
