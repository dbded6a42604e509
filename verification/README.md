# Focus timer with adaptive breaks — a Dafny model

This project models the core of a Pomodoro focus companion:

- **Timer** (`timer.dfy`): the focus countdown in the browser. It runs 25
  minutes of focus, ends the backend session, and asks the backend for an
  adaptive break. It then counts the break down and goes back to idle.
  Pause, reset, set-duration and the minute slider are modelled too.
- **Backend** (`backend.dfy`): the session table and the eye-activity log of
  the Flask service, its four handlers, and the break ladder. A better focus
  score gives a shorter break: 3, 5, 7 or 10 minutes.
- **GazeTracker** (`gaze_tracker.dfy`): the per-second focus sampler that
  runs inside the camera frame loop. Its counters, and the `gaze_update`
  events it emits with the running focus percentage.
- **EyeTracking** (`eye_tracking.dfy`): the browser panel. It decides from
  the session id, the active flag and the paused flag whether to start or
  stop tracking, and shows each gaze event.
- **Pkce** (`pkce.dfy`): the PKCE helpers of the music player's sign-in. The
  random code verifier (RFC 7636, section 4.1) and the unpadded base64url
  encoding (RFC 4648, section 5) of the SHA-256 challenge (RFC 7636, section
  4.2), with a decoder so that the round trip can be stated.
- **SpotifyPlayer** (`spotify_player.dfy`): the playlist search filter, and
  the state changes of signing in and out, of the two panels, and of
  choosing what to play.

Objects whose fields the source updates in place are classes:
`PomodoroTimer`, `Database`, `Tracker`, `TrackingPanel` and `Player`.
Each method states the whole new state. The timer and the tracker tie each
method to a specification function on values (`Ticked`, `Started`,
`Sampled`, `Replay`, ...), and the lemmas prove the source's promises about
those functions. Asynchronous replies, the clock, random bytes and the
digest are parameters.

What the code does, and the model with it:

- No vitality or health counter exists in the code. The mascot only mirrors
  whether a session is active.
- The recommended break is adopted verbatim. No client-side clamp to
  [60, 3600] seconds exists.
- Outside a break, resuming after a pause requests a new session id.
- A failed recommendation gives a 300-second break, but it does not set the
  paused flag.
- The tracker's counters are never reset between sessions. They live as
  long as the tracker object.

## Model

| member | source | states |
|---|---|---|
| Timer.RoundedMinutes | frontend/components/Timer.tsx:24 | `Math.round(s/60)` is the whole number m with m*60-30 <= s < m*60+30 (halves round up) |
| Timer.SliderMinutes | frontend/components/Timer.tsx:24 | the slider position is in [1, 60]; it is 1 exactly below 90 seconds and 60 exactly from 3570 seconds; in between it is the nearest minute |
| Timer.SliderSeconds | frontend/components/Timer.tsx:186-192 | the slider at position k (k + 0.25 minutes, the values a range from 0.25 by steps of 1 offers) sets a whole k minutes and 15 seconds |
| Timer.SliderPositionShowsItsMinute | frontend/components/Timer.tsx:24 | after the slider is moved to position k (0..59), the displayed minutes are k, or 1 at the lowest position |
| Timer.TickDecrementsOnlyWhileRunning | frontend/components/Timer.tsx:26-38 | a tick subtracts exactly 1 while running above zero; at zero it completes and stops the countdown; otherwise it changes nothing |
| Timer.TimeStaysNonNegative | frontend/components/Timer.tsx:26-30 | whatever the user does, the countdown never goes below zero unless a negative duration is supplied |
| Timer.CountDown | frontend/components/Timer.tsx:26-30 | n ticks of a running countdown with at least n seconds left take exactly n seconds off and change nothing else |
| Timer.FocusPhaseEndsInRecommendedBreak | frontend/components/Timer.tsx:40-50 | start, 1500 ticks, completion: time and recommended break equal the backend's value verbatim; break and paused are set; the session is kept |
| Timer.FocusPhaseFallsBackToDefaultBreak | frontend/components/Timer.tsx:51-55 | when the recommendation fails, the break is 300 seconds and the break flag is set, but paused is not |
| Timer.FullCycleReturnsToIdle | frontend/components/Timer.tsx:40-88 | with a page that stores what `onBreakChange` sends: focus phase, break, resumed break counted down, completion: back to 1500 seconds with no session, no break, not paused, not active and stopped |
| Timer.PageWithoutBreakFlagNeverRests | frontend/components/Timer.tsx:40-77 | with a page whose `isBreak` stays false: a start during the break takes a new session, and the end of the break asks for another break instead of returning to idle |
| Timer.RearmIsIdempotent | frontend/components/Timer.tsx:96-114 | reset and set-duration stop the countdown and clear the session, break, paused and active flags; reset sets 1500 seconds and set-duration its argument; each is idempotent |
| Timer.ResumeStartsNewSession | frontend/components/Timer.tsx:67-77 | outside a break, a start after a pause adopts the new session id and keeps the remaining time |
| Timer.PomodoroTimer.constructor | frontend/components/Timer.tsx:17-21 | the initial state: 1500 seconds, stopped, no session, a 300-second recommended break, all flags false |
| Timer.PomodoroTimer.HandleTimerComplete | frontend/components/Timer.tsx:40-65 | the countdown stops; a focus phase with a session switches to the recommended break (paused), or to the 300-second fallback; anything else returns to idle; the notification matches |
| Timer.PomodoroTimer.Tick | frontend/components/Timer.tsx:26-38 | one run of the countdown effect: decrement while running above zero, completion at zero |
| Timer.PomodoroTimer.StartTimer | frontend/components/Timer.tsx:67-88 | no-op when running; otherwise it runs; outside a break it adopts the new session (or keeps the old one when the request fails); in a break it sets paused |
| Timer.PomodoroTimer.PauseTimer | frontend/components/Timer.tsx:90-94 | stops and sets paused and inactive; time, session and break are unchanged |
| Timer.PomodoroTimer.ResetTimer | frontend/components/Timer.tsx:96-104 | 1500 seconds, stopped, no session, no break, not paused, not active |
| Timer.PomodoroTimer.SetTimer | frontend/components/Timer.tsx:106-114 | the given seconds, stopped, no session, no break, not paused, not active |
| Timer.PomodoroTimer.HandleSliderChange | frontend/components/Timer.tsx:116-118 | the slider at position k sets k*60 + 15 seconds through `setTimer` |
| Timer.PomodoroTimer.SetBreakFlag | frontend/components/Timer.tsx:9 | the page sets the `isBreak` prop; nothing else changes |
| Backend.CountActivity | backend/app.py:96-100 | the focused count never exceeds the session's sample count, which never exceeds the number of rows |
| Backend.CountAfterAppend | backend/app.py:136-139 | an appended sample changes the counts of its own session by one (and the focused count only when focused); other sessions' counts are unchanged |
| Backend.LoggedSampleEntersScore | backend/app.py:96-104 | a sample logged for a session adds one to its total and, when focused, one to its focused count |
| Backend.FocusScore | backend/app.py:96-104 | the score is in [0, 1] and is 0 when the session has no samples |
| Backend.WholeSeconds | backend/app.py:93 | `int(total_seconds())` truncates toward zero, for negative differences too |
| Backend.EffectiveScore | backend/app.py:162 | a zero stored score reads as 0.5; any other score is kept |
| Backend.BreakSeconds | backend/app.py:171-184 | the ladder always answers 180, 300, 420 or 600 seconds |
| Backend.LadderSteps | backend/app.py:173-184 | at least 0.8 gives 180, at least 0.6 gives 300, at least 0.4 gives 420, and below 0.4 gives 600 |
| Backend.BreakShrinksAsFocusGrows | backend/app.py:173-184 | a higher score never gets a longer break |
| Backend.RecommendedBreak | backend/app.py:162-184 | the break for a stored row is one of the four ladder values |
| Backend.DurationIsIgnored | backend/app.py:163-184 | the stored duration has no effect on the break |
| Backend.UnfocusedSessionGetsModerateBreak | backend/app.py:162 | a stored score of zero gets 420 seconds, not 600 |
| Backend.Database.constructor | backend/app.py:19-47 | both tables start empty |
| Backend.Database.StartSession | backend/app.py:49-68 | exactly one new row under the fresh id, with the start time and with end time, duration and score at their defaults; the log is untouched; a colliding id fails |
| Backend.Database.EndSession | backend/app.py:70-120 | 400 without a session id, 404 for an unknown one; otherwise only that row's end time, whole-second duration and score change, and the reply carries them |
| Backend.Database.LogEyeActivity | backend/app.py:122-146 | 400 without a session id; otherwise exactly one row is appended, `gaze_focused` defaulting to false, and the session is not looked up |
| Backend.Database.RecommendInterval | backend/app.py:148-193 | 404 for an unknown session; otherwise a reply echoing the session id, with the ladder's answer for the row's score and the score it used (0.5 in place of a zero score) |
| GazeTracker.FocusPercentage | backend/services/gaze_tracker.py:245 | the percentage is focused/total*100, 0 before any check, and in [0, 100] while focused <= total |
| GazeTracker.CheckCountsOnce | backend/services/gaze_tracker.py:237-255 | a due check adds one to the total, one to the focused count exactly when the frame is focused (never for a frame without a face), and moves the check clock; otherwise nothing changes |
| GazeTracker.FocusedNeverExceedsChecks | backend/services/gaze_tracker.py:239-242 | no sequence of frames makes the focused count exceed the total |
| GazeTracker.AtMostOneCheckPerSecond | backend/services/gaze_tracker.py:238-255 | the number of checks never exceeds the seconds the check clock advanced |
| GazeTracker.OneUpdatePerCheck | backend/services/gaze_tracker.py:237-251 | one `gaze_update` per check, each for the tracked session and with a percentage in [0, 100] |
| GazeTracker.Tracker.constructor | backend/services/gaze_tracker.py:9-14 | no camera, not running, zero counts, the check clock at creation time |
| GazeTracker.Tracker.Start | backend/services/gaze_tracker.py:42-61 | an open camera is kept; otherwise it is opened, and failure returns false; the counters are untouched |
| GazeTracker.Tracker.Stop | backend/services/gaze_tracker.py:63-72 | not running and no camera; the counters are untouched |
| GazeTracker.Tracker.Sample | backend/services/gaze_tracker.py:209-255 | the check block on one frame follows `Sampled` and emits the update computed from the new counts exactly when a check is due |
| GazeTracker.Tracker.GenerateFrames | backend/services/gaze_tracker.py:178-255 | no frames are handled when the camera cannot start; otherwise the counters end as `Replay` of the frames and the emitted updates are `Emitted`; after the last frame the camera stays open and the tracker running |
| EyeTracking.TrackingControl | frontend/components/EyeTracking.tsx:50-58 | no action without a session id; with one, start exactly when active and not paused, stop otherwise |
| EyeTracking.RejectionMessage | frontend/components/EyeTracking.tsx:85 | the body's message when present and non-empty, else "Failed to start tracking" |
| EyeTracking.TrackingPanel.constructor | frontend/components/EyeTracking.tsx:15-19 | not tracking, 0 percent, "Waiting...", no error |
| EyeTracking.TrackingPanel.HandleGaze | frontend/components/EyeTracking.tsx:28-32 | the status follows `is_focused`; the percentage is copied verbatim |
| EyeTracking.TrackingPanel.StartTracking | frontend/components/EyeTracking.tsx:61-91 | no change without a session; success sets tracking; a rejection or a network failure sets the error and leaves tracking unchanged |
| EyeTracking.TrackingPanel.StopTracking | frontend/components/EyeTracking.tsx:93-103 | a completed stop clears tracking; a failed one changes nothing |
| EyeTracking.TrackingPanel.OnControlInputs | frontend/components/EyeTracking.tsx:50-58 | the control effect runs the start or the stop that `TrackingControl` chooses, with the flag and error message each reply gives, and nothing without a session |
| Pkce.PossibleIsAlphanumeric | frontend/components/SpotifyPlayer.tsx:10 | the alphabet has 62 characters, all letters or digits |
| Pkce.GenerateRandomString | frontend/components/SpotifyPlayer.tsx:9-13 | n random bytes give n characters; character i is `possible[b_i % 62]` |
| Pkce.VerifierIsValid | frontend/components/SpotifyPlayer.tsx:105 | a verifier of 43 to 128 bytes (64 in the source) meets section 4.1 of RFC 7636 |
| Pkce.RemoveAll | frontend/components/SpotifyPlayer.tsx:25 | no occurrence of the character remains, every other character is kept as often as before, and a string without it is returned unchanged |
| Pkce.PaddingRemoved | frontend/components/SpotifyPlayer.tsx:25 | removing '=' removes all of `btoa`'s padding |
| Pkce.UnpaddedHasNoPadding | frontend/components/SpotifyPlayer.tsx:24 | no character before `btoa`'s padding is '=' |
| Pkce.BtoaWithoutPadding | frontend/components/SpotifyPlayer.tsx:24-25 | `btoa` with '=' removed is exactly the unpadded characters |
| Pkce.ReplaceAll | frontend/components/SpotifyPlayer.tsx:26-27 | the same length, with exactly the occurrences replaced |
| Pkce.BtoaLength | frontend/components/SpotifyPlayer.tsx:24 | `btoa` is standard base64 with '=' padding (section 4 of RFC 4648): four characters for every group of up to three bytes |
| Pkce.Base64Encode | frontend/components/SpotifyPlayer.tsx:21-28 | the output has no '=', '+' or '/' |
| Pkce.BtoaIsUnpaddedPlusPadding | frontend/components/SpotifyPlayer.tsx:24 | `btoa` is the unpadded characters followed by "==", "=" or nothing, by the byte count modulo 3 |
| Pkce.UnpaddedLength | frontend/components/SpotifyPlayer.tsx:24-25 | n bytes give ceil(4n/3) characters before the padding |
| Pkce.UnpaddedIsStd | frontend/components/SpotifyPlayer.tsx:24 | every character before the padding is in the standard base64 alphabet |
| Pkce.Base64EncodeIsUnpaddedUrl | frontend/components/SpotifyPlayer.tsx:21-28 | the output is the unpadded base64 made URL-safe: ceil(4n/3) characters, all from the base64url alphabet |
| Pkce.BtoaRoundTrip | frontend/components/SpotifyPlayer.tsx:24 | standard base64 decodes back to the bytes |
| Pkce.RepadRestoresPadding | frontend/components/SpotifyPlayer.tsx:24-25 | padding to a multiple of four restores exactly the padding that was removed |
| Pkce.Base64EncodeRoundTrip | frontend/components/SpotifyPlayer.tsx:21-28 | re-padding the output and mapping '-' and '_' back gives `btoa`'s output, which decodes to the input bytes |
| Pkce.CodeChallenge | frontend/components/SpotifyPlayer.tsx:106-107 | the challenge is ceil(4n/3) characters of the base64url alphabet for an n-byte digest |
| Pkce.ChallengeOfDigestIsValid | frontend/components/SpotifyPlayer.tsx:106-107 | a 32-byte digest gives a 43-character challenge that meets sections 4.1 and 4.2 of RFC 7636 |
| SpotifyPlayer.LowerChar | frontend/components/SpotifyPlayer.tsx:329 | an upper-case ASCII letter becomes its lower-case letter; any other character is kept |
| SpotifyPlayer.LowerCase | frontend/components/SpotifyPlayer.tsx:329 | the same length, each character lowered, and no upper-case ASCII letter left |
| SpotifyPlayer.FilterByName | frontend/components/SpotifyPlayer.tsx:328-332 | no more playlists than given, and each shown one is given and matches the query |
| SpotifyPlayer.FilterKeepsExactlyMatches | frontend/components/SpotifyPlayer.tsx:328-332 | a playlist is shown exactly when it is in the list and its lower-cased name contains the lower-cased query |
| SpotifyPlayer.FilterPreservesOrder | frontend/components/SpotifyPlayer.tsx:328-332 | filtering distributes over concatenation, so the original order is kept |
| SpotifyPlayer.ContainsEmpty | frontend/components/SpotifyPlayer.tsx:329 | every name contains the empty query |
| SpotifyPlayer.EmptyQueryShowsAll | frontend/components/SpotifyPlayer.tsx:328-332 | an empty query shows every playlist |
| SpotifyPlayer.FilterIsIdempotent | frontend/components/SpotifyPlayer.tsx:328-332 | filtering the shown playlists again by the same query changes nothing |
| SpotifyPlayer.Player.constructor | frontend/components/SpotifyPlayer.tsx:31-41 | no token, not signed in, nothing to play, both panels closed, empty queries, results and selection |
| SpotifyPlayer.Player.RestoreToken | frontend/components/SpotifyPlayer.tsx:63-69 | a non-empty stored token signs in; otherwise nothing changes |
| SpotifyPlayer.Player.AcceptToken | frontend/components/SpotifyPlayer.tsx:91-97 | a non-empty `access_token` signs in and is stored; otherwise nothing changes |
| SpotifyPlayer.Player.HandleLogout | frontend/components/SpotifyPlayer.tsx:127-131 | the token is forgotten in the component and in the session store; signed out |
| SpotifyPlayer.Player.SearchTracks | frontend/components/SpotifyPlayer.tsx:156-179 | without a token or with an empty query the results are cleared; otherwise they become the reply's tracks, if it has any |
| SpotifyPlayer.Player.ViewPlaylistTracks | frontend/components/SpotifyPlayer.tsx:210-235 | the playlist is selected; its tracks are listed when signed in and the reply has them |
| SpotifyPlayer.Player.PlayTrack | frontend/components/SpotifyPlayer.tsx:181-189 | plays exactly the track; the search query and results are cleared; both panels are hidden; the selection and its tracks are cleared |
| SpotifyPlayer.Player.PlayPlaylist | frontend/components/SpotifyPlayer.tsx:237-243 | plays exactly the playlist; its panel is hidden; its query is cleared, so every playlist is shown again; the selection and its tracks are cleared; search is untouched |
| SpotifyPlayer.Player.BackToPlaylists | frontend/components/SpotifyPlayer.tsx:245-248 | the selection and its tracks are cleared; nothing else changes |
| SpotifyPlayer.Player.FetchUserPlaylists | frontend/components/SpotifyPlayer.tsx:191-208 | with a token, the reply's `items`, when present, become the playlists; nothing else changes |
| SpotifyPlayer.Player.TypePlaylistQuery | frontend/components/SpotifyPlayer.tsx:324 | the typed text becomes the playlist query, and the shown playlists are exactly those whose name contains it |
| SpotifyPlayer.Player.TypeSearchQuery | frontend/components/SpotifyPlayer.tsx:428-431 | the typed text becomes the song query and the search runs on it, as `SearchTracks` states |
| SpotifyPlayer.Player.TogglePlaylists | frontend/components/SpotifyPlayer.tsx:292-295 | the playlist panel flips and the search panel closes |
| SpotifyPlayer.Player.ToggleSearch | frontend/components/SpotifyPlayer.tsx:301-304 | the search panel flips and the playlist panel closes |

Every `Player` method also keeps two invariants: signed in exactly when a
token is held, and tracks are listed only while some playlist is selected.
The second holds because each reply is applied in one step.

## Left out

- Browser and React plumbing is not modelled: the `setInterval` timing, when effects re-run and clean up, how asynchronous calls interleave, desktop notifications and `formatTime`. One run of the countdown effect is one `Tick`, and an API call's answer is a parameter. This hides one effect of the source: when a focus phase ends, `setIsRunning(false)` re-runs the effect while `time` is still 0, so `handleTimerComplete` runs twice, with two `endSession` calls, two recommendation requests and two notifications, and a failing second request can replace the first one's break with 300 seconds.
- The break flag is modelled as a page that stores what `onBreakChange` sends. The page as shipped passes neither `isBreak` nor `onBreakChange`, so its flag is always false. Then a start during a break asks for a new session, and the break's end asks for another break instead of returning to idle. `ParentBreak` lets the page set the flag, and Timer.PageWithoutBreakFlagNeverRests proves this behaviour. Timer.FullCycleReturnsToIdle holds only for a page that stores the flag.
- The video feed image and its `onError` handler, which sets the error to "Failed to load video feed", are not modelled.
- The page passes no `onFocusChange`, so the focus callback of `handleGaze` is left out. In the source, calling that undefined callback throws a TypeError on every gaze event, after the status and percentage are set. The model's `HandleGaze` returns normally.
- Timer.PomodoroTimer.HandleSliderChange: takes the slider position k rather than the number k + 0.25 the input sends, and assumes the browser offers only the positions 0..59. The browser snapping the displayed `sliderMinutes` onto that grid is not modelled.
- Backend.FocusScore: the score is an exact fraction rather than a floating-point quotient. The ladder compares fractions by cross-multiplication, which agrees with the floats for the small counts involved.
- SQLite, SQL text, Flask routing, CORS and server start-up are not modelled. The tables are a map and a sequence. A fresh uuid and the clock are parameters. A uuid collision is modelled as a 500 reply.
- GazeTracker.FocusPercentage: computes in exact reals, while the source divides and multiplies Python floats; Tracker.Sample does the same. Rounding is not modelled.
- The landmark geometry of `detect_gaze_focus` is not modelled. Each frame carries the focused flag, or no face.
- Camera capture, drawing, JPEG encoding and the multipart stream are not modelled. The frames handled are those delivered before a read fails, or before `stop`, called from another request, ends the loop.
- The standalone webcam script, the HTTP demo client, the stats panel, the info bubble, the alert script and the axios wrapper are not part of this model.
- The mascot only maps the active flag to a mood. No vitality mechanic exists in the code, so none is modelled.
- SHA-256 (`crypto.subtle.digest`) and `crypto.getRandomValues` are not modelled. The digest bytes and the random bytes are inputs.
- The OAuth redirect, the token request, the Spotify Web API fetches, the SDK player and the initial focus-playlist load are not modelled. Replies are parameters of the methods that consume them.
- SpotifyPlayer.LowerChar: lowers only ASCII letters and keeps every other character, while `toLowerCase` also lowers non-ASCII letters such as 'Ä'.
- SpotifyPlayer.LowerCase: lowers only ASCII letters. `toLowerCase` also lowers other Unicode letters, and this is not modelled.
- Replies that arrive late are not modelled. In the source, a `fetchPlaylistTracks` reply that arrives after `backToPlaylists` sets the track list while no playlist is selected. The Player invariant about listed tracks relies on each reply being applied at once.
- The timestamps carried by `gaze_update` events are not modelled.
