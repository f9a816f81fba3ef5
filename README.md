# Pomodoro timer engine, modelled in Dafny

This project models the session engine of a Pomodoro timer, `PomodoroService`, together with the small amount of logic in three of its user-interface components.

The engine holds one configuration and one session. A session is a WORK interval or a short or long break, in one of four states: IDLE, RUNNING, PAUSED or COMPLETED. While a session runs, a tick fires every second and recomputes the elapsed seconds from the start time. Once the elapsed time reaches the session's length, the session completes. The engine then moves on to the next session, either at once or, when auto-start is on, after a 3-second pause. From WORK it goes to a break: a long break when the number of finished work sessions is a multiple of `sessionsUntilLongBreak`, otherwise a short one. From a break it goes to the WORK session of the next goal. After the break of the last goal, the engine resets.

Files:

- `models.dfy` (module `PomodoroModels`): the `Config` and `Session` records, the two enumerations, `Option`, and the default configuration.
- `pomodoro.dfy` (module `Pomodoro`): the pure helpers, and the whole engine as a value `EngineState`. Each operation is a step function on that value (`StartStep`, `TickStep`, `CompleteStep`, …). The class `PomodoroService` performs the same operations in place on its fields. Every engine operation is proved to leave `State()` equal to its step function applied to the old state. The two timer helpers `StartTimer` and `StopTimer` only set or clear the subscription flag.
- `pomodoro_properties.dfy` (module `PomodoroProperties`): the invariants kept across any sequence of operations, the shape of a complete run, how ticks follow the clock, and concrete behaviours of the engine as written.
- `time_format.dfy` (module `TimeFormat`): the `mm:ss` clock. It comes with a parser, and the proved round trip says the clock shows the remaining time exactly.
- `configuration.dfy`, `session_view.dfy`, `floating_indicator.dfy`: the configuration form's validation gate, the session view, and the floating widget. Each component is a class that holds the engine.

How the environment is represented:

- The clock `Date.now()` is a parameter `now`, in milliseconds.
- The rxjs interval subscription is the flag `timerActive`. The engine's `Tick` method is the interval's callback, and it may be called only while the flag is set.
- Each 3-second `setTimeout` that has been scheduled and has not yet fired adds one to `pendingTransitions`. `FirePendingTransition` is that timeout's callback.
- The browser's storage is modelled by two ghost fields, `storedSession` and `storedConfig`, which `saveSession`, `clearSession` and `saveConfig` write.

Behaviours of the code that the model keeps:

- `pauseSession` has no guard. Pausing an IDLE session makes it PAUSED with no start time.
- A reset does not cancel a transition already scheduled. When that transition fires, it runs on the fresh session and counts a work session that was thrown away (`ResetDoesNotCancelPendingTransition`).
- Two completions within the 3-second pause schedule two transitions.
- A late change of configuration can leave the tick subscribed while the session is IDLE (`OrphanTimerAfterLateConfigChange`). That tick does nothing, but the invariant proved is therefore "no subscription survives a pause or a completion", not "the timer runs only while RUNNING".
- A session restored from storage as RUNNING gets no tick, and starting it does nothing until it has been paused (`RestoredRunningSessionIsStalled`).
- The tick tests `!startTime`, which is JavaScript truthiness, so a start time of 0 also stops the tick.
- `completedGoals % sessionsUntilLongBreak === 0` is false when the interval is 0, because the remainder is NaN. The model therefore asks nothing of the interval (see `LongBreakDue`). Only the long-break lemmas assume that it is positive (`ValidConfig`). The configuration form never checks it (`GateCoversEngineRanges`).
- `Math.floor(x / 1000)` is Dafny's `/` by the positive constant 1000; the two agree for negative `x` as well.

## Model

| member | source | states |
|---|---|---|
| `Pomodoro.InitialSession` | src/app/services/pomodoro.ts:145-157 | A fresh session is goal 1, WORK, IDLE, with no start or pause time, no progress and no goals counted. Its length is `workDuration * 60` seconds. |
| `Pomodoro.SessionDuration` | src/app/services/pomodoro.ts:372-384 | The length in minutes of each session type, taken from the configuration. It lies in 1..60 for a valid configuration. |
| `Pomodoro.RemainingTime` | src/app/services/pomodoro.ts:24-27 | The remaining time is never negative. It is at least `total - elapsed`, and it is either 0 or exactly `total - elapsed`, which is `max(0, total - elapsed)`. |
| `Pomodoro.ElapsedAt` | src/app/services/pomodoro.ts:249 | The seconds a tick computes are the floor of the milliseconds since the start divided by 1000: `s * 1000 <= now - start < s * 1000 + 1000`. |
| `Pomodoro.IsRunning` | src/app/services/pomodoro.ts:29 | Defined as status RUNNING. `StartAndPauseSetRunning` states what start and pause do to it. |
| `Pomodoro.TickApplies` | src/app/services/pomodoro.ts:245 | The tick's guard: the session is RUNNING and its start time is present and not 0. JavaScript truthiness treats 0 as missing (`ZeroStartTimeStallsTick`). |
| `Pomodoro.LongBreakDue` | src/app/services/pomodoro.ts:315 | The long-break test is never true for an interval of 0, where the remainder is NaN. For any other interval it is true exactly when the interval divides the count. |
| `Pomodoro.NextSession` | src/app/services/pomodoro.ts:302-349 | From WORK, the goal stays, one more goal is counted, and the next type is LONG_BREAK exactly when the new count is a multiple of the interval, otherwise SHORT_BREAK. From a break, the next type is WORK with the next goal and the same count. There is no next session exactly when the goal would pass `totalGoals`. A next session starts at 0 elapsed, its length comes from the configuration, and it is RUNNING from `now` exactly when auto-start is on, otherwise IDLE with no start time. |
| `Pomodoro.Boot` | src/app/services/pomodoro.ts:15-36 | The engine uses the stored configuration, or the default when none is stored (`loadInitialConfig`, lines 141-143). It restores the stored session unless that session was COMPLETED, and starts with no tick and nothing scheduled. |
| `Pomodoro.StartStep` | src/app/services/pomodoro.ts:159-176 | Nothing changes while RUNNING. Otherwise the session becomes RUNNING with start time `now - elapsed * 1000` and no pause time, every other field is kept, the tick is subscribed, and the session is stored. |
| `Pomodoro.PauseStep` | src/app/services/pomodoro.ts:187-195 | With no guard, the status becomes PAUSED and the pause time `now`. Start time and progress are kept, the tick is cancelled, and the session is stored. |
| `Pomodoro.ResetStep` | src/app/services/pomodoro.ts:204-208 | The session becomes the fresh session of the current configuration. The tick is cancelled and storage is cleared. Scheduled transitions stay scheduled. |
| `Pomodoro.UpdateConfigStep` | src/app/services/pomodoro.ts:221-224 | The configuration is replaced and stored. The current session, including its length, is untouched. |
| `Pomodoro.TransitionStep` | src/app/services/pomodoro.ts:302-370 | When the run is over, this is a reset. Otherwise the next session replaces the current one and is stored, and the tick is subscribed if auto-start is on. |
| `Pomodoro.CompleteStep` | src/app/services/pomodoro.ts:271-299 | The tick is cancelled and the session is marked COMPLETED with elapsed equal to its length. With auto-start, one transition is scheduled and nothing else changes: configuration and both storage entries stay. Without auto-start, the transition happens at once. |
| `Pomodoro.TickStep` | src/app/services/pomodoro.ts:242-261 | Nothing happens unless the session is RUNNING with a truthy start time. Otherwise the elapsed seconds are recomputed from the clock, and the session completes exactly when they reach its length. |
| `Pomodoro.FireStep` | src/app/services/pomodoro.ts:293-296 | A scheduled timeout fires, which removes one pending transition and performs it. |
| `Pomodoro.PomodoroService.constructor` | src/app/services/pomodoro.ts:31-36 | The service's fields are the boot state. |
| `Pomodoro.PomodoroService.StartSession` | src/app/services/pomodoro.ts:159-176 | The new state is `StartStep` of the old one. |
| `Pomodoro.PomodoroService.PauseSession` | src/app/services/pomodoro.ts:187-195 | The new state is `PauseStep` of the old one. |
| `Pomodoro.PomodoroService.ResetSession` | src/app/services/pomodoro.ts:204-215 | The new state is `ResetStep` of the old one. |
| `Pomodoro.PomodoroService.SkipToNext` | src/app/services/pomodoro.ts:217-219 | Skipping is completion: the new state is `CompleteStep` of the old one. |
| `Pomodoro.PomodoroService.UpdateConfig` | src/app/services/pomodoro.ts:221-224 | The new state is `UpdateConfigStep` of the old one. |
| `Pomodoro.PomodoroService.StartTimer` | src/app/services/pomodoro.ts:239-242 | Afterwards exactly one tick subscription is active. |
| `Pomodoro.PomodoroService.StopTimer` | src/app/services/pomodoro.ts:264-269 | Afterwards no tick subscription is active. |
| `Pomodoro.PomodoroService.Tick` | src/app/services/pomodoro.ts:242-261 | A tick, which fires only while subscribed, leaves `TickStep` of the old state. |
| `Pomodoro.PomodoroService.CompleteSession` | src/app/services/pomodoro.ts:271-300 | The new state is `CompleteStep` of the old one. |
| `Pomodoro.PomodoroService.FirePendingTransition` | src/app/services/pomodoro.ts:293-296 | A scheduled timeout firing leaves `FireStep` of the old state. |
| `Pomodoro.PomodoroService.TransitionToNextSession` | src/app/services/pomodoro.ts:302-370 | The step-by-step update of next type, goal and count leaves `TransitionStep` of the old state. |
| `PomodoroProperties.TransitionKeepsWellFormed` | src/app/services/pomodoro.ts:302-370 | A transition keeps the session well formed for any configuration that passes the form's three steps. Well formed means: progress within the length, and timestamps consistent with the status. It also means a RUNNING session's progress is no more than the clock measured since its start, and a live tick only on a RUNNING or IDLE session. |
| `PomodoroProperties.CompleteKeepsWellFormed` | src/app/services/pomodoro.ts:271-299 | Completion keeps the session well formed, in both auto-start branches. |
| `PomodoroProperties.StepKeepsWellFormed` | src/app/services/pomodoro.ts:159-370 | Every operation allowed at its time keeps the session well formed. A configuration change is allowed whenever it passes the form's steps, whatever its interval and number of goals. |
| `PomodoroProperties.RunKeepsWellFormed` | src/app/services/pomodoro.ts:159-370 | Every state reached by allowed operations, with a clock that does not go back, is well formed. |
| `PomodoroProperties.BootWellFormed` | src/app/services/pomodoro.ts:141-157 | A first start with nothing in storage, and a stored configuration that passes the form's steps, is well formed. |
| `PomodoroProperties.TransitionKeepsInv` | src/app/services/pomodoro.ts:302-370 | A transition keeps the whole engine invariant: well formed, a valid configuration, and the goal, count and break kind consistent. |
| `PomodoroProperties.CompleteKeepsInv` | src/app/services/pomodoro.ts:271-299 | Completion keeps the engine invariant; afterwards elapsed is at most the total. |
| `PomodoroProperties.StepKeepsInv` | src/app/services/pomodoro.ts:159-370 | Every allowed operation that keeps the counters keeps the whole engine invariant. |
| `PomodoroProperties.RunKeepsInv` | src/app/services/pomodoro.ts:159-370 | Every state reached by allowed operations that keep the counters satisfies the whole engine invariant. |
| `PomodoroProperties.BootKeepsInv` | src/app/services/pomodoro.ts:141-157 | A first start with nothing in storage satisfies the invariant. |
| `PomodoroProperties.ReachableFacts` | src/app/services/pomodoro.ts:24-27 | In every reachable state, for any configurations the form accepts, 0 <= elapsed <= total and the remaining time is exactly `total - elapsed`. A RUNNING session there has a start time, and its progress is no more than the clock has measured since that start. |
| `PomodoroProperties.ReachableCounters` | src/app/services/pomodoro.ts:306-335 | In every state reached by operations that keep the counters, the goal lies in 1..`totalGoals`, at most `totalGoals` goals are counted, and at least `currentGoal - 1`. |
| `PomodoroProperties.StartAndPauseSetRunning` | src/app/services/pomodoro.ts:29 | After a start the engine is running and after a pause it is not. A start while running changes nothing. |
| `PomodoroProperties.ZeroStartTimeStallsTick` | src/app/services/pomodoro.ts:245-247 | A RUNNING session whose start time is 0 is never ticked. |
| `PomodoroProperties.StartTwiceIsStartOnce` | src/app/services/pomodoro.ts:159-164 | A second start neither moves the start time nor adds a subscription. |
| `PomodoroProperties.StartThenPauseKeepsElapsed` | src/app/services/pomodoro.ts:159-195 | Starting and then pausing keeps the progress and the start time. |
| `PomodoroProperties.TickAfterStart` | src/app/services/pomodoro.ts:171-259 | After a start, a tick k seconds later sees the earlier progress plus k. Once that reaches the session's length, the tick completes the session. |
| `PomodoroProperties.PauseResumeKeepsProgress` | src/app/services/pomodoro.ts:171-191 | A pause followed by a start resumes from the progress counted before the pause. |
| `PomodoroProperties.TicksFollowTheClock` | src/app/services/pomodoro.ts:243-255 | Any series of ticks short of the end leaves the progress that the last tick's time gives by itself. |
| `PomodoroProperties.Schedule` | src/app/services/pomodoro.ts:310-323 | From a fresh session, transition j leads to goal j/2 + 1. That session is WORK when j is even. Otherwise it is the break after (j+1)/2 finished work sessions, and it is long exactly when that number is a multiple of the interval. |
| `PomodoroProperties.RunLength` | src/app/services/pomodoro.ts:326-335 | A run from a fresh session has exactly `2 * totalGoals` sessions before the engine resets. |
| `PomodoroProperties.RunEndsAfterAllGoals` | src/app/services/pomodoro.ts:326-335 | The run ends only after the break of the last goal, with all `totalGoals` goals counted. |
| `PomodoroProperties.CountersMoveOneAtATime` | src/app/services/pomodoro.ts:310-324 | Only a WORK completion counts a goal, only a break advances the goal, and never both at once. |
| `PomodoroProperties.FirstPomodoroExample` | src/app/services/pomodoro.ts:242-349 | A 25-minute work session started manually completes 1500 s after its start. The engine then waits IDLE in a 300 s short break of goal 1, with one goal counted. |
| `PomodoroProperties.FourthPomodoroExample` | src/app/services/pomodoro.ts:310-319 | With an interval of 4, the fourth work session is followed by the long break. |
| `PomodoroProperties.LastBreakResets` | src/app/services/pomodoro.ts:326-335 | Completing the long break of goal 4 of 4 resets the engine and clears storage. |
| `PomodoroProperties.ResetDoesNotCancelPendingTransition` | src/app/services/pomodoro.ts:293-296 | Auto-start, complete, reset, then the timeout fires: the fresh session is advanced to a running SHORT_BREAK with one goal counted. |
| `PomodoroProperties.DoubleSkipSchedulesTwoTransitions` | src/app/services/pomodoro.ts:293-296 | Two completions during the pause schedule two transitions. |
| `PomodoroProperties.RestoredRunningSessionIsStalled` | src/app/services/pomodoro.ts:31-36 | A session restored as RUNNING has no tick, and start leaves it unchanged. |
| `PomodoroProperties.OrphanTimerAfterLateConfigChange` | src/app/services/pomodoro.ts:353-369 | A concrete allowed sequence of operations ends IDLE with the tick still subscribed. |
| `TimeFormat.DecimalString` | src/app/components/session-view/session-view.ts:35 | `toString` of a whole number gives at least one decimal digit, with no leading zero. |
| `TimeFormat.DecimalRoundTrip` | src/app/components/session-view/session-view.ts:35 | Reading back the digits of n gives n. |
| `TimeFormat.PadStart` | src/app/components/session-view/session-view.ts:35 | `padStart` keeps the text as its suffix, fills the front with the fill character, and leaves max(length, width) characters. |
| `TimeFormat.Pad2` | src/app/components/session-view/session-view.ts:35 | A padded field has at least 2 digits and denotes the same number, with exactly 2 digits below 100. |
| `TimeFormat.Pad2IsPadStart` | src/app/components/session-view/session-view.ts:35 | The two-digit field is exactly `toString().padStart(2, '0')` of the number. |
| `TimeFormat.ClockFields` | src/app/components/session-view/session-view.ts:32-34 | The fields are the minutes and the seconds, with seconds < 60 and `minutes * 60 + seconds == remaining`. |
| `TimeFormat.FormatClock` | src/app/components/session-view/session-view.ts:31-36 | The clock text has at least 5 characters, with ':' third from the end (the seconds always take two digits). Below 6000 seconds it is exactly `mm:ss`. |
| `TimeFormat.SplitClock` | src/app/components/session-view/session-view.ts:35 | A text made of minute digits, ':' and two second digits parses as those two fields. |
| `TimeFormat.FormatRoundTrip` | src/app/components/session-view/session-view.ts:31-36 | Parsing the clock text gives back the remaining seconds. |
| `Configuration.GateCoversEngineRanges` | src/app/components/configuration/configuration.ts:51-66 | Passing the three steps, together with a positive interval, is exactly the engine's valid configuration. The gate does not look at the interval. |
| `Configuration.DefaultPassesGate` | src/app/models/pomodoro-config.model.ts:11-19 | The default configuration passes all three steps and is valid for the engine. |
| `Configuration.ConfigurationComponent.constructor` | src/app/components/configuration/configuration.ts:36-43 | The form starts from the default configuration with all three flags false. |
| `Configuration.ConfigurationComponent.ValidateStep1` | src/app/components/configuration/configuration.ts:51-54 | The flag is set iff 1 <= totalGoals <= 20. |
| `Configuration.ConfigurationComponent.ValidateStep2` | src/app/components/configuration/configuration.ts:56-59 | The flag is set iff 1 <= workDuration <= 60. |
| `Configuration.ConfigurationComponent.ValidateStep3` | src/app/components/configuration/configuration.ts:61-66 | The flag is set iff both break lengths are in 1..60. |
| `Configuration.ConfigurationComponent.ValidateAllSteps` | src/app/components/configuration/configuration.ts:68-72 | All three flags describe the working copy. |
| `Configuration.ConfigurationComponent.NgOnInit` | src/app/components/configuration/configuration.ts:45-49 | The working copy is the engine's configuration, and the flags are re-evaluated for it. |
| `Configuration.ConfigurationComponent.SaveConfiguration` | src/app/components/configuration/configuration.ts:78-83 | The engine's configuration is replaced, and the copy emitted, only when all three flags are set. Otherwise nothing changes. When the flags describe the working copy, a configuration handed over at save time passes the gate. |
| `Configuration.ConfigurationComponent.HasActiveSession` | src/app/components/configuration/configuration.ts:98-101 | True iff the session is RUNNING or PAUSED. |
| `SessionView.Label` | src/app/components/session-view/session-view.ts:38-46 | WORK, SHORT_BREAK and LONG_BREAK map to 'Trabajo', 'Descanso Corto' and 'Descanso Largo'. The map is total. |
| `SessionView.LabelsAreDistinct` | src/app/components/session-view/session-view.ts:40-44 | Two types have the same label iff they are the same type. |
| `SessionView.SessionViewComponent.FormattedTime` | src/app/components/session-view/session-view.ts:31-36 | The view's clock parses back to the engine's remaining time. It is 5 characters below 100 minutes. |
| `SessionView.SessionViewComponent.SessionTypeLabel` | src/app/components/session-view/session-view.ts:38-46 | The view shows the label of the current session type, which is one of the three labels. |
| `SessionView.SessionViewComponent.OnStart` | src/app/components/session-view/session-view.ts:48-51 | Start is performed, and then `sessionStarted` is emitted once. |
| `SessionView.SessionViewComponent.OnPause` | src/app/components/session-view/session-view.ts:53-55 | Only pause is performed. |
| `SessionView.SessionViewComponent.OnReset` | src/app/components/session-view/session-view.ts:57-59 | Only reset is performed. |
| `SessionView.SessionViewComponent.OnSkip` | src/app/components/session-view/session-view.ts:61-63 | Only skip is performed. |
| `FloatingIndicator.Label` | src/app/components/floating-indicator/floating-indicator.ts:46-58 | WORK, SHORT_BREAK and LONG_BREAK map to 'Trabajo', 'Descanso corto' and 'Descanso largo', in lower case, unlike the session view. |
| `FloatingIndicator.LabelsAreDistinct` | src/app/components/floating-indicator/floating-indicator.ts:48-55 | Two types have the same label iff they are the same type. |
| `FloatingIndicator.FloatingIndicatorComponent.constructor` | src/app/components/floating-indicator/floating-indicator.ts:28 | The widget starts collapsed. |
| `FloatingIndicator.FloatingIndicatorComponent.FormattedTime` | src/app/components/floating-indicator/floating-indicator.ts:39-44 | The widget's clock parses back to the engine's remaining time. It is 5 characters below 100 minutes. |
| `FloatingIndicator.FloatingIndicatorComponent.SessionTypeLabel` | src/app/components/floating-indicator/floating-indicator.ts:46-58 | The widget shows the lower-case label of the current session type. |
| `FloatingIndicator.FloatingIndicatorComponent.ToggleExpanded` | src/app/components/floating-indicator/floating-indicator.ts:60-62 | The flag is negated, so two toggles restore it. |
| `FloatingIndicator.FloatingIndicatorComponent.ToggleTimer` | src/app/components/floating-indicator/floating-indicator.ts:64-70 | A running engine is paused, and any other is started. |
| `FloatingIndicator.FloatingIndicatorComponent.ResetSession` | src/app/components/floating-indicator/floating-indicator.ts:72-74 | Only reset is performed. |
| `FloatingIndicator.FloatingIndicatorComponent.SkipSession` | src/app/components/floating-indicator/floating-indicator.ts:76-78 | Only skip is performed. |
| `FloatingIndicator.ToggleTwiceKeepsProgress` | src/app/components/floating-indicator/floating-indicator.ts:64-70 | Two toggles in a row keep the session's progress. |

## Left out

- Notifications are left out: the browser Notification API, the permission request, the test notification, the auto-closing timeouts, the `getSessionTypeLabel` texts and the `config.notifications` gate. They are calls into the platform and do not affect the timer state.
- Real scheduling with rxjs `interval` and `setTimeout` is left out. Which callback fires when is up to the caller of `Tick` and `FirePendingTransition`.
- `progressPercentage` is left out, because it is floating-point division.
- Storage is modelled only by what the engine writes to the two ghost fields. JSON serialisation and storage failures are not modelled. `loadConfig` and `loadSession` become the constructor's parameters.
- Console logging, the snack-bar message, `nextStep` (stepper navigation) and `showSettings` (an event emit) are left out; they are UI only.
- `app.ts`, `main-dialog.ts` and `main.ts` are not part of this model. They hold bootstrap code, templates and a dialog-visibility flag.
- Angular signals and dependency injection are left out. `session` and `config` are plain fields, and each component holds the engine it is given.
- The form's template is not part of this model. How its fields edit `tempConfig`, and when they call the step validators, is represented only by the `FlagsCurrent` predicate.
- JavaScript numbers are modelled as unbounded integers. Fractional or non-numeric values in a stored or edited configuration are not modelled.
- The `default` branches of `getSessionDuration` and of the widget's label switch are not modelled, because a closed enumeration cannot reach them.
- RunKeepsInv: a configuration change in the trace must be valid, keep the long-break interval and not drop `totalGoals` below the current goal (`KeepsCounters`). The code accepts any configuration that passes the form. After such other changes, the goal and count part of the invariant can fail. The well-formed part holds without this restriction (`RunKeepsWellFormed`). `ReachableCounters` carries the same restriction.
- SaveConfiguration: `updateConfig` receives the form's `tempConfig` object itself, not a copy, and the engine stores that reference. The form stays open after a save, so if its fields are bound to `tempConfig`, later edits change the engine's configuration in place. Such edits skip both the gate and `saveConfig`. The model treats configurations as values, so it cannot show this aliasing. Its guarantee that the engine's configuration passes the gate holds only at the moment of saving.
