/** The floating indicator: a collapsible widget with the remaining time,
    the session type, a start/pause toggle and reset and skip buttons. */
module FloatingIndicator {
  import opened PomodoroModels
  import opened Pomodoro
  import opened TimeFormat

  /** The widget's labels are lower case after the first word, unlike the
      session view's.  (Its 'Sesión' default, for a value outside the
      enumeration, cannot arise here.) */
  function Label(t: SessionType): (text: string)
    ensures t == Work ==> text == "Trabajo"
    ensures t == ShortBreak ==> text == "Descanso corto"
    ensures t == LongBreak ==> text == "Descanso largo"
  {
    match t
    case Work => "Trabajo"
    case ShortBreak => "Descanso corto"
    case LongBreak => "Descanso largo"
  }

  lemma LabelsAreDistinct(a: SessionType, b: SessionType)
    ensures Label(a) == Label(b) <==> a == b
  {
  }

  class FloatingIndicatorComponent {
    const engine: PomodoroService
    var isExpanded: bool

    constructor (engine: PomodoroService)
      ensures this.engine == engine && !isExpanded
    {
      this.engine := engine;
      isExpanded := false;
    }

    /** The same clock as the session view's. */
    function FormattedTime(): (text: string)
      reads engine
      ensures ParseClock(text) == Some(RemainingTime(engine.session))
      ensures RemainingTime(engine.session) < 6000 ==> |text| == 5 && text[2] == ':'
    {
      var remaining := RemainingTime(engine.session);
      FormatRoundTrip(remaining);
      FormatClock(remaining)
    }

    function SessionTypeLabel(): (text: string)
      reads engine
      ensures text == Label(engine.session.currentType)
      ensures text in {"Trabajo", "Descanso corto", "Descanso largo"}
    {
      Label(engine.session.currentType)
    }

    /** Negates the flag, so two toggles restore it. */
    method ToggleExpanded()
      modifies this`isExpanded
      ensures isExpanded == !old(isExpanded)
    {
      isExpanded := !isExpanded;
    }

    /** Pauses a running engine and starts any other. */
    method ToggleTimer(now: int)
      modifies engine
      ensures old(IsRunning(engine.session)) ==> engine.State() == PauseStep(old(engine.State()), now)
      ensures !old(IsRunning(engine.session)) ==> engine.State() == StartStep(old(engine.State()), now)
    {
      if IsRunning(engine.session) {
        engine.PauseSession(now);
      } else {
        engine.StartSession(now);
      }
    }

    method ResetSession()
      modifies engine
      ensures engine.State() == ResetStep(old(engine.State()))
    {
      engine.ResetSession();
    }

    method SkipSession(now: int)
      modifies engine
      ensures engine.State() == CompleteStep(old(engine.State()), now)
    {
      engine.SkipToNext(now);
    }
  }

  /** Two toggles in a row (pause then start, or start then pause) keep the
      session's progress. */
  lemma ToggleTwiceKeepsProgress(e: EngineState, t1: int, t2: int)
    ensures var once := if IsRunning(e.session) then PauseStep(e, t1) else StartStep(e, t1);
      var twice := if IsRunning(once.session) then PauseStep(once, t2) else StartStep(once, t2);
      twice.session.elapsedSeconds == e.session.elapsedSeconds
  {
  }
}
