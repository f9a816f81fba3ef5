/** The configuration form: a working copy of the engine's configuration,
    one validity flag per form step, and a save gate that hands the copy to
    the engine only when every step is valid. */
module Configuration {
  import opened PomodoroModels
  import opened Pomodoro

  /** Step 1: the number of goals is between 1 and 20. */
  predicate Step1Valid(c: Config) {
    c.totalGoals >= 1 && c.totalGoals <= 20
  }

  /** Step 2: the work length is between 1 and 60 minutes. */
  predicate Step2Valid(c: Config) {
    c.workDuration >= 1 && c.workDuration <= 60
  }

  /** Step 3: both break lengths are between 1 and 60 minutes. */
  predicate Step3Valid(c: Config) {
    && c.shortBreakDuration >= 1 && c.shortBreakDuration <= 60
    && c.longBreakDuration >= 1 && c.longBreakDuration <= 60
  }

  predicate PassesGate(c: Config) {
    Step1Valid(c) && Step2Valid(c) && Step3Valid(c)
  }

  /** The gate checks the engine's ranges but not the long-break interval:
      with a positive interval a configuration the gate accepts is one the
      engine assumes, and without one it is accepted all the same. */
  lemma GateCoversEngineRanges(c: Config)
    ensures PassesGate(c) && c.sessionsUntilLongBreak > 0 <==> ValidConfig(c)
    ensures PassesGate(c.(sessionsUntilLongBreak := 0)) == PassesGate(c)
  {
  }

  /** The default configuration passes all three steps. */
  lemma DefaultPassesGate()
    ensures PassesGate(DefaultConfig) && ValidConfig(DefaultConfig)
  {
  }

  class ConfigurationComponent {
    const engine: PomodoroService
    var tempConfig: Config
    var step1Completed: bool
    var step2Completed: bool
    var step3Completed: bool
    /** The configurations emitted by `configurationSaved`. */
    ghost var savedEmitted: seq<Config>

    /** The flags describe the current working copy (the form re-validates a
        step whenever one of its fields is edited). */
    ghost predicate FlagsCurrent()
      reads this
    {
      && step1Completed == Step1Valid(tempConfig)
      && step2Completed == Step2Valid(tempConfig)
      && step3Completed == Step3Valid(tempConfig)
    }

    constructor (engine: PomodoroService)
      ensures this.engine == engine
      ensures tempConfig == DefaultConfig
      ensures !step1Completed && !step2Completed && !step3Completed
      ensures savedEmitted == []
    {
      this.engine := engine;
      tempConfig := DefaultConfig;
      step1Completed, step2Completed, step3Completed := false, false, false;
      savedEmitted := [];
    }

    method ValidateStep1()
      modifies this`step1Completed
      ensures step1Completed == Step1Valid(tempConfig)
    {
      var isValid := tempConfig.totalGoals >= 1 && tempConfig.totalGoals <= 20;
      step1Completed := isValid;
    }

    method ValidateStep2()
      modifies this`step2Completed
      ensures step2Completed == Step2Valid(tempConfig)
    {
      var isValid := tempConfig.workDuration >= 1 && tempConfig.workDuration <= 60;
      step2Completed := isValid;
    }

    method ValidateStep3()
      modifies this`step3Completed
      ensures step3Completed == Step3Valid(tempConfig)
    {
      var isValid :=
        tempConfig.shortBreakDuration >= 1 && tempConfig.shortBreakDuration <= 60 &&
        tempConfig.longBreakDuration >= 1 && tempConfig.longBreakDuration <= 60;
      step3Completed := isValid;
    }

    method ValidateAllSteps()
      modifies this`step1Completed, this`step2Completed, this`step3Completed
      ensures step1Completed == Step1Valid(tempConfig)
      ensures step2Completed == Step2Valid(tempConfig)
      ensures step3Completed == Step3Valid(tempConfig)
    {
      ValidateStep1();
      ValidateStep2();
      ValidateStep3();
    }

    /** Copies the engine's configuration into the form and re-checks it. */
    method NgOnInit()
      modifies this`tempConfig, this`step1Completed, this`step2Completed, this`step3Completed
      ensures tempConfig == engine.config
      ensures step1Completed == Step1Valid(engine.config)
      ensures step2Completed == Step2Valid(engine.config)
      ensures step3Completed == Step3Valid(engine.config)
      ensures FlagsCurrent()
    {
      var current := engine.config;
      tempConfig := current;
      ValidateAllSteps();
    }

    /** Hands the working copy to the engine only when all three flags are
        set; otherwise nothing changes. */
    method SaveConfiguration()
      modifies engine, this`savedEmitted
      ensures step1Completed && step2Completed && step3Completed ==>
        && engine.State() == UpdateConfigStep(old(engine.State()), tempConfig)
        && savedEmitted == old(savedEmitted) + [tempConfig]
      ensures !(step1Completed && step2Completed && step3Completed) ==>
        && engine.State() == old(engine.State())
        && savedEmitted == old(savedEmitted)
      ensures FlagsCurrent() ==> PassesGate(engine.config) || engine.config == old(engine.config)
    {
      if step1Completed && step2Completed && step3Completed {
        engine.UpdateConfig(tempConfig);
        savedEmitted := savedEmitted + [tempConfig];
      }
    }

    /** A session is active while it runs or is paused. */
    function HasActiveSession(): (active: bool)
      reads engine
      ensures active <==> engine.session.status == Running || engine.session.status == Paused
    {
      var status := engine.session.status;
      status != Idle && status != Completed
    }
  }
}
