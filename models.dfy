/** The records the Pomodoro engine works on: the user's configuration and
    the one session that is currently being timed. */
module PomodoroModels {

  /** A nullable value (the source's `number | null`). */
  datatype Option<T> = None | Some(value: T) {
    function GetOr(default: T): T {
      match this
      case Some(v) => v
      case None => default
    }
  }

  datatype SessionType = Work | ShortBreak | LongBreak

  datatype SessionStatus = Idle | Running | Paused | Completed

  /** One timed interval and its progress.  Timestamps are milliseconds,
      durations and progress are whole seconds. */
  datatype Session = Session(
    currentGoal: int,         // 1-based index of the current pomodoro
    currentType: SessionType,
    status: SessionStatus,
    startTime: Option<int>,
    pausedTime: Option<int>,
    elapsedSeconds: int,
    totalSeconds: int,
    completedGoals: int       // number of finished WORK sessions
  )

  /** The user's settings; durations are in minutes. */
  datatype Config = Config(
    workDuration: int,
    shortBreakDuration: int,
    longBreakDuration: int,
    totalGoals: int,
    autoStartNext: bool,
    sessionsUntilLongBreak: int,
    notifications: bool
  )

  /** The configuration used when nothing was stored. */
  const DefaultConfig: Config := Config(25, 5, 15, 4, true, 4, true)
}
