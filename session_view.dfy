/** The main session view: the remaining time as `mm:ss`, the label of the
    session type, and four buttons that each call one engine operation. */
module SessionView {
  import opened PomodoroModels
  import opened Pomodoro
  import opened TimeFormat

  /** The label of each session type; every type has one and no two share
      it. */
  function Label(t: SessionType): (text: string)
    ensures t == Work ==> text == "Trabajo"
    ensures t == ShortBreak ==> text == "Descanso Corto"
    ensures t == LongBreak ==> text == "Descanso Largo"
  {
    match t
    case Work => "Trabajo"
    case ShortBreak => "Descanso Corto"
    case LongBreak => "Descanso Largo"
  }

  lemma LabelsAreDistinct(a: SessionType, b: SessionType)
    ensures Label(a) == Label(b) <==> a == b
  {
  }

  class SessionViewComponent {
    const engine: PomodoroService
    /** How many times `sessionStarted` was emitted. */
    ghost var startedEmitted: nat

    constructor (engine: PomodoroService)
      ensures this.engine == engine && startedEmitted == 0
    {
      this.engine := engine;
      startedEmitted := 0;
    }

    /** The clock text: the remaining seconds can be read back from it, and
        it is five characters `mm:ss` below 100 minutes. */
    function FormattedTime(): (text: string)
      reads engine
      ensures ParseClock(text) == Some(RemainingTime(engine.session))
      ensures RemainingTime(engine.session) < 6000 ==> |text| == 5 && text[2] == ':'
    {
      var seconds := RemainingTime(engine.session);
      FormatRoundTrip(seconds);
      FormatClock(seconds)
    }

    function SessionTypeLabel(): (text: string)
      reads engine
      ensures text == Label(engine.session.currentType)
      ensures text in {"Trabajo", "Descanso Corto", "Descanso Largo"}
    {
      Label(engine.session.currentType)
    }

    /** Starts the engine, then emits `sessionStarted` (also when the engine
        was already running and start did nothing). */
    method OnStart(now: int)
      modifies engine, this`startedEmitted
      ensures engine.State() == StartStep(old(engine.State()), now)
      ensures startedEmitted == old(startedEmitted) + 1
    {
      engine.StartSession(now);
      startedEmitted := startedEmitted + 1;
    }

    method OnPause(now: int)
      modifies engine
      ensures engine.State() == PauseStep(old(engine.State()), now)
    {
      engine.PauseSession(now);
    }

    method OnReset()
      modifies engine
      ensures engine.State() == ResetStep(old(engine.State()))
    {
      engine.ResetSession();
    }

    method OnSkip(now: int)
      modifies engine
      ensures engine.State() == CompleteStep(old(engine.State()), now)
    {
      engine.SkipToNext(now);
    }
  }
}
