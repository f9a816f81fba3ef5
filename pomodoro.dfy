/** The Pomodoro session engine: one session, one configuration, the tick
    subscription and the deferred 3-second transitions.

    Time is the parameter `now` (milliseconds, what the engine reads from the
    clock); the rxjs subscription is the flag `timerActive`; each scheduled
    3-second transition is one unit of `pendingTransitions`; the browser's
    storage is the pair of ghost fields `storedSession` and `storedConfig`.

    The step functions over `EngineState` say what each operation does to the
    whole engine; the class `PomodoroService` performs the same operations in
    place and its methods are proved to agree with them. */
module Pomodoro {
  import opened PomodoroModels

  // ---------------------------------------------------------------------------
  // Configuration assumptions
  // ---------------------------------------------------------------------------

  /** The configuration the engine assumes: the ranges the configuration form
      enforces, and a positive long-break interval. */
  predicate ValidConfig(c: Config) {
    && 1 <= c.workDuration <= 60
    && 1 <= c.shortBreakDuration <= 60
    && 1 <= c.longBreakDuration <= 60
    && 1 <= c.totalGoals <= 20
    && c.sessionsUntilLongBreak >= 1
  }

  // ---------------------------------------------------------------------------
  // Pure session helpers
  // ---------------------------------------------------------------------------

  /** A fresh session: the first WORK interval, not started. */
  function InitialSession(cfg: Config): (s: Session)
    ensures s.currentGoal == 1 && s.currentType == Work && s.status == Idle
    ensures s.startTime == None && s.pausedTime == None
    ensures s.elapsedSeconds == 0 && s.completedGoals == 0
    ensures s.totalSeconds == cfg.workDuration * 60
  {
    Session(1, Work, Idle, None, None, 0, cfg.workDuration * 60, 0)
  }

  /** Length in minutes of a session of type `t`.  (The source's default
      branch, for a value outside the enumeration, cannot arise here.) */
  function SessionDuration(cfg: Config, t: SessionType): (minutes: int)
    ensures t == Work ==> minutes == cfg.workDuration
    ensures t == ShortBreak ==> minutes == cfg.shortBreakDuration
    ensures t == LongBreak ==> minutes == cfg.longBreakDuration
    ensures ValidConfig(cfg) ==> 1 <= minutes <= 60
  {
    match t
    case Work => cfg.workDuration
    case ShortBreak => cfg.shortBreakDuration
    case LongBreak => cfg.longBreakDuration
  }

  /** Seconds left in the session, never negative. */
  function RemainingTime(s: Session): (r: nat)
    ensures r >= s.totalSeconds - s.elapsedSeconds
    ensures r == 0 || r == s.totalSeconds - s.elapsedSeconds
  {
    if s.totalSeconds - s.elapsedSeconds > 0 then s.totalSeconds - s.elapsedSeconds else 0
  }

  predicate IsRunning(s: Session) {
    s.status == Running
  }

  /** The tick does its work only for a RUNNING session whose start time is
      truthy in JavaScript: a start time of 0 counts as missing. */
  predicate TickApplies(s: Session) {
    s.status == Running && s.startTime.Some? && s.startTime.value != 0
  }

  /** Whole seconds between the start time and `now`, rounded down
      (Math.floor of a division by 1000). */
  function ElapsedAt(s: Session, now: int): (seconds: int)
    requires s.startTime.Some?
    ensures seconds * 1000 <= now - s.startTime.value < seconds * 1000 + 1000
  {
    (now - s.startTime.value) / 1000
  }

  /** `completed % every === 0` in JavaScript: for `every == 0` the remainder
      is NaN and the comparison is false.  The truncated remainder of
      JavaScript and the Euclidean one used here are zero for the same
      operands, so the test is "`every` divides `completed`". */
  function LongBreakDue(completed: int, every: int): (due: bool)
    ensures every == 0 ==> !due
    ensures every != 0 ==> (due <==> (completed / every) * every == completed)
  {
    every != 0 && completed % every == 0
  }

  /** The session that follows `s`, or None when the run is over (the goal
      index would pass `totalGoals`). */
  function NextSession(s: Session, cfg: Config, now: int): (r: Option<Session>)
    ensures s.currentType == Work ==> (r.None? <==> s.currentGoal > cfg.totalGoals)
    ensures s.currentType != Work ==> (r.None? <==> s.currentGoal + 1 > cfg.totalGoals)
    ensures r.Some? && s.currentType == Work ==>
      && r.value.currentGoal == s.currentGoal
      && r.value.completedGoals == s.completedGoals + 1
      && r.value.currentType != Work
      && (r.value.currentType == LongBreak <==> LongBreakDue(s.completedGoals + 1, cfg.sessionsUntilLongBreak))
    ensures r.Some? && s.currentType != Work ==>
      && r.value.currentGoal == s.currentGoal + 1
      && r.value.completedGoals == s.completedGoals
      && r.value.currentType == Work
    ensures r.Some? ==>
      && r.value.elapsedSeconds == 0
      && r.value.pausedTime == None
      && r.value.totalSeconds == SessionDuration(cfg, r.value.currentType) * 60
      && (r.value.status == Running <==> cfg.autoStartNext)
      && (cfg.autoStartNext ==> r.value.startTime == Some(now))
      && (!cfg.autoStartNext ==> r.value.status == Idle && r.value.startTime == None)
  {
    var completed := if s.currentType == Work then s.completedGoals + 1 else s.completedGoals;
    var nextType :=
      if s.currentType != Work then Work
      else if LongBreakDue(completed, cfg.sessionsUntilLongBreak) then LongBreak
      else ShortBreak;
    var nextGoal := if s.currentType == Work then s.currentGoal else s.currentGoal + 1;
    if nextGoal > cfg.totalGoals then None
    else Some(Session(
      nextGoal, nextType,
      if cfg.autoStartNext then Running else Idle,
      if cfg.autoStartNext then Some(now) else None,
      None, 0, SessionDuration(cfg, nextType) * 60, completed))
  }

  /** The session as completion leaves it. */
  function AsCompleted(s: Session): Session {
    s.(status := Completed, elapsedSeconds := s.totalSeconds)
  }

  // ---------------------------------------------------------------------------
  // The whole engine as a value, and what each operation does to it
  // ---------------------------------------------------------------------------

  datatype EngineState = EngineState(
    config: Config,
    session: Session,
    timerActive: bool,              // the 1-second tick is subscribed
    pendingTransitions: nat,        // 3-second transitions scheduled and not yet fired
    storedSession: Option<Session>, // what storage holds under the session key
    storedConfig: Option<Config>    // what storage holds under the config key
  )

  /** Construction: the stored configuration or the default one, and the
      stored session unless it was COMPLETED. */
  function Boot(loadedConfig: Option<Config>, savedSession: Option<Session>): (e: EngineState)
    ensures loadedConfig.Some? ==> e.config == loadedConfig.value
    ensures loadedConfig.None? ==> e.config == DefaultConfig
    ensures savedSession.Some? && savedSession.value.status != Completed ==> e.session == savedSession.value
    ensures savedSession.None? || savedSession.value.status == Completed ==> e.session == InitialSession(e.config)
    ensures !e.timerActive && e.pendingTransitions == 0
  {
    var cfg := loadedConfig.GetOr(DefaultConfig);
    var s := if savedSession.Some? && savedSession.value.status != Completed
             then savedSession.value else InitialSession(cfg);
    EngineState(cfg, s, false, 0, savedSession, loadedConfig)
  }

  /** startSession: nothing happens while RUNNING; otherwise the start time is
      moved back by the elapsed seconds, so that progress carries over. */
  function StartStep(e: EngineState, now: int): (r: EngineState)
    ensures e.session.status == Running ==> r == e
    ensures e.session.status != Running ==>
      && r.session.status == Running
      && r.session.startTime == Some(now - e.session.elapsedSeconds * 1000)
      && r.session.pausedTime == None
      && r.session.(status := e.session.status, startTime := e.session.startTime, pausedTime := e.session.pausedTime) == e.session
      && r.timerActive
      && r.storedSession == Some(r.session)
      && r.(session := e.session, timerActive := e.timerActive, storedSession := e.storedSession) == e
  {
    if e.session.status == Running then e
    else
      var s := e.session.(status := Running,
                          startTime := Some(now - e.session.elapsedSeconds * 1000),
                          pausedTime := None);
      e.(session := s, timerActive := true, storedSession := Some(s))
  }

  /** pauseSession: unguarded; records the pause time and keeps start time
      and progress. */
  function PauseStep(e: EngineState, now: int): (r: EngineState)
    ensures r.session.status == Paused && r.session.pausedTime == Some(now)
    ensures r.session.(status := e.session.status, pausedTime := e.session.pausedTime) == e.session
    ensures !r.timerActive && r.storedSession == Some(r.session)
    ensures r.(session := e.session, timerActive := e.timerActive, storedSession := e.storedSession) == e
  {
    var s := e.session.(status := Paused, pausedTime := Some(now));
    e.(session := s, timerActive := false, storedSession := Some(s))
  }

  /** resetSession: a fresh session, no tick, nothing stored.  Transitions
      already scheduled are NOT cancelled. */
  function ResetStep(e: EngineState): (r: EngineState)
    ensures r.session == InitialSession(e.config)
    ensures !r.timerActive && r.storedSession == None
    ensures r.config == e.config && r.pendingTransitions == e.pendingTransitions
    ensures r.storedConfig == e.storedConfig
  {
    e.(session := InitialSession(e.config), timerActive := false, storedSession := None)
  }

  /** updateConfig: replaces and stores the configuration; the current
      session keeps its length. */
  function UpdateConfigStep(e: EngineState, c: Config): (r: EngineState)
    ensures r.config == c && r.storedConfig == Some(c)
    ensures r.(config := e.config, storedConfig := e.storedConfig) == e
  {
    e.(config := c, storedConfig := Some(c))
  }

  /** transitionToNextSession: the next session replaces the current one and
      is stored, or the run is over and the engine resets. */
  function TransitionStep(e: EngineState, now: int): (r: EngineState)
    ensures NextSession(e.session, e.config, now).None? ==> r == ResetStep(e)
    ensures NextSession(e.session, e.config, now).Some? ==>
      && r.session == NextSession(e.session, e.config, now).value
      && r.storedSession == Some(r.session)
      && r.timerActive == (e.timerActive || e.config.autoStartNext)
      && r.(session := e.session, storedSession := e.storedSession, timerActive := e.timerActive) == e
  {
    match NextSession(e.session, e.config, now)
    case None => ResetStep(e)
    case Some(next) =>
      e.(session := next, storedSession := Some(next),
         timerActive := e.timerActive || e.config.autoStartNext)
  }

  /** completeSession (also skipToNext): stop the tick, mark the session
      COMPLETED with full progress, then transition now or in 3 seconds. */
  function CompleteStep(e: EngineState, now: int): (r: EngineState)
    ensures e.config.autoStartNext ==>
      r == e.(session := AsCompleted(e.session), timerActive := false,
              pendingTransitions := e.pendingTransitions + 1)
    ensures !e.config.autoStartNext ==>
      r == TransitionStep(e.(session := AsCompleted(e.session), timerActive := false), now)
    ensures r.config == e.config && !r.timerActive
  {
    var done := e.(session := AsCompleted(e.session), timerActive := false);
    if e.config.autoStartNext then done.(pendingTransitions := done.pendingTransitions + 1)
    else TransitionStep(done, now)
  }

  /** The body of the 1-second tick. */
  function TickStep(e: EngineState, now: int): (r: EngineState)
    ensures !TickApplies(e.session) ==> r == e
    ensures TickApplies(e.session) && ElapsedAt(e.session, now) < e.session.totalSeconds ==>
      r == e.(session := e.session.(elapsedSeconds := ElapsedAt(e.session, now)))
    ensures TickApplies(e.session) && ElapsedAt(e.session, now) >= e.session.totalSeconds ==>
      r == CompleteStep(e, now)
  {
    if !TickApplies(e.session) then e
    else
      var elapsed := ElapsedAt(e.session, now);
      var ticked := e.(session := e.session.(elapsedSeconds := elapsed));
      if elapsed >= e.session.totalSeconds then CompleteStep(ticked, now) else ticked
  }

  /** One scheduled 3-second transition fires. */
  function FireStep(e: EngineState, now: int): (r: EngineState)
    requires e.pendingTransitions > 0
    ensures r == TransitionStep(e.(pendingTransitions := e.pendingTransitions - 1), now)
    ensures r.pendingTransitions == e.pendingTransitions - 1
  {
    TransitionStep(e.(pendingTransitions := e.pendingTransitions - 1), now)
  }

  // ---------------------------------------------------------------------------
  // The service object
  // ---------------------------------------------------------------------------

  class PomodoroService {
    var config: Config
    var session: Session
    var timerActive: bool
    var pendingTransitions: nat
    ghost var storedSession: Option<Session>
    ghost var storedConfig: Option<Config>

    ghost function State(): EngineState
      reads this
    {
      EngineState(config, session, timerActive, pendingTransitions, storedSession, storedConfig)
    }

    /** Loads the configuration (or the default) and restores a stored
        session unless it was COMPLETED. */
    constructor (loadedConfig: Option<Config>, savedSession: Option<Session>)
      ensures State() == Boot(loadedConfig, savedSession)
    {
      var cfg := loadedConfig.GetOr(DefaultConfig);
      config := cfg;
      session := InitialSession(cfg);
      timerActive := false;
      pendingTransitions := 0;
      storedSession := savedSession;
      storedConfig := loadedConfig;
      if savedSession.Some? && savedSession.value.status != Completed {
        session := savedSession.value;
      }
    }

    method StartSession(now: int)
      modifies this
      ensures State() == StartStep(old(State()), now)
    {
      var current := session;
      if current.status == Running {
        return;
      }
      session := session.(status := Running,
                          startTime := Some(now - session.elapsedSeconds * 1000),
                          pausedTime := None);
      StartTimer();
      storedSession := Some(session);
    }

    method PauseSession(now: int)
      modifies this
      ensures State() == PauseStep(old(State()), now)
    {
      session := session.(status := Paused, pausedTime := Some(now));
      StopTimer();
      storedSession := Some(session);
    }

    method ResetSession()
      modifies this
      ensures State() == ResetStep(old(State()))
    {
      StopTimer();
      var newSession := InitialSession(config);
      session := newSession;
      storedSession := None;
    }

    method SkipToNext(now: int)
      modifies this
      ensures State() == CompleteStep(old(State()), now)
    {
      CompleteSession(now);
    }

    method UpdateConfig(newConfig: Config)
      modifies this
      ensures State() == UpdateConfigStep(old(State()), newConfig)
    {
      config := newConfig;
      storedConfig := Some(newConfig);
    }

    /** Subscribing cancels any previous subscription first, so there is
        never more than one. */
    method StartTimer()
      modifies this`timerActive
      ensures timerActive
    {
      StopTimer();
      timerActive := true;
    }

    method StopTimer()
      modifies this`timerActive
      ensures !timerActive
    {
      if timerActive {
        timerActive := false;
      }
    }

    /** One firing of the 1-second interval; it fires only while subscribed. */
    method Tick(now: int)
      requires timerActive
      modifies this
      ensures State() == TickStep(old(State()), now)
    {
      var current := session;
      if current.status != Running || current.startTime.None? || current.startTime.value == 0 {
        return;
      }
      var elapsed := (now - current.startTime.value) / 1000;
      session := session.(elapsedSeconds := elapsed);
      if elapsed >= current.totalSeconds {
        CompleteSession(now);
      }
    }

    method CompleteSession(now: int)
      modifies this
      ensures State() == CompleteStep(old(State()), now)
    {
      StopTimer();
      session := session.(status := Completed, elapsedSeconds := session.totalSeconds);
      if config.autoStartNext {
        // setTimeout(() => this.transitionToNextSession(), 3000)
        pendingTransitions := pendingTransitions + 1;
      } else {
        TransitionToNextSession(now);
      }
    }

    /** The callback of a scheduled 3-second timeout. */
    method FirePendingTransition(now: int)
      requires pendingTransitions > 0
      modifies this
      ensures State() == FireStep(old(State()), now)
    {
      pendingTransitions := pendingTransitions - 1;
      TransitionToNextSession(now);
    }

    method TransitionToNextSession(now: int)
      modifies this
      ensures State() == TransitionStep(old(State()), now)
    {
      var current := session;
      var nextType: SessionType;
      var nextGoal := current.currentGoal;
      var completedGoals := current.completedGoals;

      if current.currentType == Work {
        completedGoals := completedGoals + 1;
        if LongBreakDue(completedGoals, config.sessionsUntilLongBreak) {
          nextType := LongBreak;
        } else {
          nextType := ShortBreak;
        }
      } else {
        nextType := Work;
        nextGoal := nextGoal + 1;
      }

      if nextGoal > config.totalGoals {
        ResetSession();
        return;
      }

      var nextDuration := SessionDuration(config, nextType);
      session := Session(
        nextGoal, nextType,
        if config.autoStartNext then Running else Idle,
        if config.autoStartNext then Some(now) else None,
        None, 0, nextDuration * 60, completedGoals);
      storedSession := Some(session);
      if config.autoStartNext {
        StartTimer();
      }
    }
  }
}
