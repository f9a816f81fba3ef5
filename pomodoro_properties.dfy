/** What the Pomodoro engine guarantees: invariants kept by every sequence of
    operations, the shape of a whole run of goals, how ticks follow the
    clock, and some concrete behaviours of the engine as written. */
module PomodoroProperties {
  import opened PomodoroModels
  import opened Pomodoro
  import opened Configuration

  // ---------------------------------------------------------------------------
  // Invariants
  // ---------------------------------------------------------------------------

  /** Progress stays within the session's length, and the timestamps agree
      with the status. */
  predicate SessionWellFormed(s: Session) {
    && 0 <= s.elapsedSeconds <= s.totalSeconds
    && (s.status == Running ==> s.startTime.Some?)
    && (s.status == Paused ==> s.pausedTime.Some?)
    && (s.status == Idle ==> s.startTime.None? && s.pausedTime.None? && s.elapsedSeconds == 0)
    && (s.status == Completed ==> s.elapsedSeconds == s.totalSeconds)
  }

  /** The part of the engine invariant that holds for any configuration the
      form accepts: a well-formed session, a RUNNING session whose counted
      progress is no more than the clock has measured since its start, and a
      tick subscription that never survives a pause or a completion (it can
      outlive a RUNNING session into IDLE: see
      OrphanTimerAfterLateConfigChange). */
  predicate WellFormed(e: EngineState, t: int) {
    && PassesGate(e.config)
    && SessionWellFormed(e.session)
    && (e.session.status == Running ==>
          e.session.startTime.value + e.session.elapsedSeconds * 1000 <= t)
    && (e.timerActive ==> e.session.status == Running || e.session.status == Idle)
  }

  /** The counters of a run: a WORK session of goal g follows g - 1 finished
      work sessions, a break of goal g follows g of them, and a break is long
      exactly when that count is a multiple of the long-break interval. */
  predicate RunInvariant(s: Session, cfg: Config)
    requires cfg.sessionsUntilLongBreak > 0
  {
    && 1 <= s.currentGoal <= cfg.totalGoals
    && (s.currentType == Work ==> s.completedGoals == s.currentGoal - 1)
    && (s.currentType != Work ==> s.completedGoals == s.currentGoal)
    && (s.currentType == LongBreak ==> s.completedGoals % cfg.sessionsUntilLongBreak == 0)
    && (s.currentType == ShortBreak ==> s.completedGoals % cfg.sessionsUntilLongBreak != 0)
  }

  /** The whole engine invariant at clock time `t`. */
  predicate Inv(e: EngineState, t: int) {
    && WellFormed(e, t)
    && ValidConfig(e.config)
    && RunInvariant(e.session, e.config)
  }

  /** The operations of the engine, as its callers and its timers invoke them. */
  datatype Event =
    | StartEv(now: int)
    | PauseEv(now: int)
    | ResetEv
    | SkipEv(now: int)
    | ConfigEv(c: Config)
    | TickEv(now: int)
    | FireEv(now: int)

  function Apply(e: EngineState, ev: Event): EngineState
    requires ev.FireEv? ==> e.pendingTransitions > 0
  {
    match ev
    case StartEv(now) => StartStep(e, now)
    case PauseEv(now) => PauseStep(e, now)
    case ResetEv => ResetStep(e)
    case SkipEv(now) => CompleteStep(e, now)
    case ConfigEv(c) => UpdateConfigStep(e, c)
    case TickEv(now) => TickStep(e, now)
    case FireEv(now) => FireStep(e, now)
  }

  function TimeAfter(t: int, ev: Event): int {
    if ev.ResetEv? || ev.ConfigEv? then t else ev.now
  }

  /** When an event can happen at clock time `t`: the clock does not go back,
      ticks fire only while subscribed, a timeout fires only once scheduled,
      and a new configuration passes the form's three steps. */
  predicate Enabled(e: EngineState, t: int, ev: Event) {
    && (!ev.ResetEv? && !ev.ConfigEv? ==> t <= ev.now)
    && (ev.TickEv? ==> e.timerActive)
    && (ev.FireEv? ==> e.pendingTransitions > 0)
    && (ev.ConfigEv? ==> PassesGate(ev.c))
  }

  /** A configuration change that keeps the run's counters meaningful: a
      positive long-break interval, the same as before, and enough goals to
      cover the current one. */
  predicate KeepsCounters(e: EngineState, ev: Event) {
    ev.ConfigEv? ==>
      && ValidConfig(ev.c)
      && ev.c.sessionsUntilLongBreak == e.config.sessionsUntilLongBreak
      && e.session.currentGoal <= ev.c.totalGoals
  }

  predicate ValidTrace(e: EngineState, t: int, evs: seq<Event>)
    decreases |evs|
  {
    evs == [] ||
    (Enabled(e, t, evs[0]) && ValidTrace(Apply(e, evs[0]), TimeAfter(t, evs[0]), evs[1..]))
  }

  /** A trace whose configuration changes also keep the counters. */
  predicate CountedTrace(e: EngineState, t: int, evs: seq<Event>)
    decreases |evs|
  {
    evs == [] ||
    (&& Enabled(e, t, evs[0]) && KeepsCounters(e, evs[0])
     && CountedTrace(Apply(e, evs[0]), TimeAfter(t, evs[0]), evs[1..]))
  }

  lemma {:induction false} CountedTraceIsValid(e: EngineState, t: int, evs: seq<Event>)
    requires CountedTrace(e, t, evs)
    ensures ValidTrace(e, t, evs)
    decreases |evs|
  {
    if evs != [] {
      CountedTraceIsValid(Apply(e, evs[0]), TimeAfter(t, evs[0]), evs[1..]);
    }
  }

  function Run(e: EngineState, t: int, evs: seq<Event>): EngineState
    requires ValidTrace(e, t, evs)
    decreases |evs|
  {
    if evs == [] then e else Run(Apply(e, evs[0]), TimeAfter(t, evs[0]), evs[1..])
  }

  function FinalTime(t: int, evs: seq<Event>): int
    decreases |evs|
  {
    if evs == [] then t else FinalTime(TimeAfter(t, evs[0]), evs[1..])
  }

  // Well-formedness, for any configuration the form accepts

  lemma TransitionKeepsWellFormed(e: EngineState, t: int, now: int)
    requires WellFormed(e, t) && t <= now
    ensures WellFormed(TransitionStep(e, now), now)
  {
    var n := NextSession(e.session, e.config, now);
    if n.Some? {
      assert SessionDuration(e.config, n.value.currentType) >= 1;
    }
  }

  lemma CompleteKeepsWellFormed(e: EngineState, t: int, now: int)
    requires WellFormed(e, t) && t <= now
    ensures WellFormed(CompleteStep(e, now), now)
  {
    var done := e.(session := AsCompleted(e.session), timerActive := false);
    assert WellFormed(done, t);
    if !e.config.autoStartNext {
      TransitionKeepsWellFormed(done, t, now);
    }
  }

  lemma StepKeepsWellFormed(e: EngineState, t: int, ev: Event)
    requires WellFormed(e, t) && Enabled(e, t, ev)
    ensures WellFormed(Apply(e, ev), TimeAfter(t, ev))
  {
    match ev
    case StartEv(now) =>
    case PauseEv(now) =>
    case ResetEv =>
    case SkipEv(now) => CompleteKeepsWellFormed(e, t, now);
    case ConfigEv(c) =>
    case TickEv(now) =>
      if TickApplies(e.session) {
        var elapsed := ElapsedAt(e.session, now);
        if elapsed >= e.session.totalSeconds {
          CompleteKeepsWellFormed(e, t, now);
          assert CompleteStep(e.(session := e.session.(elapsedSeconds := elapsed)), now)
              == CompleteStep(e, now);
        }
      }
    case FireEv(now) =>
      TransitionKeepsWellFormed(e.(pendingTransitions := e.pendingTransitions - 1), t, now);
  }

  /** Every state reachable by operations permitted at their time is well
      formed, whatever configurations the form hands over. */
  lemma {:induction false} RunKeepsWellFormed(e: EngineState, t: int, evs: seq<Event>)
    requires WellFormed(e, t) && ValidTrace(e, t, evs)
    ensures WellFormed(Run(e, t, evs), FinalTime(t, evs))
    decreases |evs|
  {
    if evs != [] {
      StepKeepsWellFormed(e, t, evs[0]);
      RunKeepsWellFormed(Apply(e, evs[0]), TimeAfter(t, evs[0]), evs[1..]);
    }
  }

  /** A first start, with nothing in storage and a stored configuration the
      form accepted, is well formed. */
  lemma BootWellFormed(loadedConfig: Option<Config>, t: int)
    requires loadedConfig.Some? ==> PassesGate(loadedConfig.value)
    ensures WellFormed(Boot(loadedConfig, None), t)
  {
  }

  /** What well-formedness gives for any reachable state. */
  lemma ReachableFacts(e: EngineState, t: int, evs: seq<Event>)
    requires WellFormed(e, t) && ValidTrace(e, t, evs)
    ensures var r := Run(e, t, evs).session;
      && 0 <= r.elapsedSeconds <= r.totalSeconds
      && RemainingTime(r) == r.totalSeconds - r.elapsedSeconds
      && (r.status == Running ==>
            && r.startTime.Some?
            && r.startTime.value + r.elapsedSeconds * 1000 <= FinalTime(t, evs))
  {
    RunKeepsWellFormed(e, t, evs);
  }

  // The whole invariant, for traces that keep the counters

  lemma TransitionKeepsInv(e: EngineState, t: int, now: int)
    requires Inv(e, t) && t <= now
    ensures Inv(TransitionStep(e, now), now)
  {
    TransitionKeepsWellFormed(e, t, now);
    var n := NextSession(e.session, e.config, now);
    if n.Some? && e.session.currentType == Work {
      assert n.value.completedGoals == e.session.currentGoal;
    }
  }

  lemma CompleteKeepsInv(e: EngineState, t: int, now: int)
    requires Inv(e, t) && t <= now
    ensures Inv(CompleteStep(e, now), now)
  {
    var done := e.(session := AsCompleted(e.session), timerActive := false);
    assert Inv(done, t);
    if !e.config.autoStartNext {
      TransitionKeepsInv(done, t, now);
    }
  }

  lemma StepKeepsInv(e: EngineState, t: int, ev: Event)
    requires Inv(e, t) && Enabled(e, t, ev) && KeepsCounters(e, ev)
    ensures Inv(Apply(e, ev), TimeAfter(t, ev))
  {
    StepKeepsWellFormed(e, t, ev);
    match ev
    case StartEv(now) =>
    case PauseEv(now) =>
    case ResetEv =>
    case SkipEv(now) => CompleteKeepsInv(e, t, now);
    case ConfigEv(c) =>
    case TickEv(now) =>
      if TickApplies(e.session) {
        var elapsed := ElapsedAt(e.session, now);
        if elapsed >= e.session.totalSeconds {
          CompleteKeepsInv(e, t, now);
          assert CompleteStep(e.(session := e.session.(elapsedSeconds := elapsed)), now)
              == CompleteStep(e, now);
        }
      }
    case FireEv(now) =>
      TransitionKeepsInv(e.(pendingTransitions := e.pendingTransitions - 1), t, now);
  }

  /** Every state reachable by a trace that keeps the counters satisfies the
      whole engine invariant. */
  lemma {:induction false} RunKeepsInv(e: EngineState, t: int, evs: seq<Event>)
    requires Inv(e, t) && CountedTrace(e, t, evs)
    ensures ValidTrace(e, t, evs)
    ensures Inv(Run(e, t, evs), FinalTime(t, evs))
    decreases |evs|
  {
    CountedTraceIsValid(e, t, evs);
    if evs != [] {
      StepKeepsInv(e, t, evs[0]);
      RunKeepsInv(Apply(e, evs[0]), TimeAfter(t, evs[0]), evs[1..]);
    }
  }

  /** A first start with nothing in storage satisfies the invariant. */
  lemma BootKeepsInv(loadedConfig: Option<Config>, t: int)
    requires loadedConfig.Some? ==> ValidConfig(loadedConfig.value)
    ensures Inv(Boot(loadedConfig, None), t)
  {
  }

  /** What the counters give for a reachable state: the goal lies within the
      run and no more goals are counted than configured. */
  lemma ReachableCounters(e: EngineState, t: int, evs: seq<Event>)
    requires Inv(e, t) && CountedTrace(e, t, evs)
    ensures ValidTrace(e, t, evs)
    ensures var r := Run(e, t, evs);
      && 1 <= r.session.currentGoal <= r.config.totalGoals
      && r.session.completedGoals <= r.config.totalGoals
      && r.session.completedGoals >= r.session.currentGoal - 1
  {
    RunKeepsInv(e, t, evs);
  }

  // ---------------------------------------------------------------------------
  // Start, pause and the clock
  // ---------------------------------------------------------------------------

  /** `isRunning` after the two operations that set the status: start always
      leaves the session running, pause never does. */
  lemma StartAndPauseSetRunning(e: EngineState, now: int)
    ensures IsRunning(StartStep(e, now).session)
    ensures !IsRunning(PauseStep(e, now).session)
    ensures IsRunning(e.session) ==> StartStep(e, now) == e
  {
  }

  /** A RUNNING session whose start time is 0 is never ticked: JavaScript
      reads the start time 0 as missing. */
  lemma ZeroStartTimeStallsTick(e: EngineState, now: int)
    requires e.session.status == Running && e.session.startTime == Some(0)
    ensures !TickApplies(e.session)
    ensures TickStep(e, now) == e
  {
  }

  /** A repeated start changes nothing: the start time is not moved and no
      second subscription appears. */
  lemma StartTwiceIsStartOnce(e: EngineState, t1: int, t2: int)
    ensures StartStep(StartStep(e, t1), t2) == StartStep(e, t1)
  {
  }

  /** Starting and pausing straight away keeps the progress. */
  lemma StartThenPauseKeepsElapsed(e: EngineState, t1: int, t2: int)
    ensures PauseStep(StartStep(e, t1), t2).session.elapsedSeconds == e.session.elapsedSeconds
    ensures PauseStep(StartStep(e, t1), t2).session.startTime == StartStep(e, t1).session.startTime
  {
  }

  /** After a start at `t0`, a tick `k` seconds (and `d` milliseconds) later
      sees the earlier progress plus `k`; once that reaches the length of the
      session, the tick completes it. */
  lemma TickAfterStart(e: EngineState, t0: int, k: nat, d: int)
    requires e.session.status != Running
    requires t0 - e.session.elapsedSeconds * 1000 != 0
    requires 0 <= d < 1000
    ensures var started := StartStep(e, t0);
      && ElapsedAt(started.session, t0 + k * 1000 + d) == e.session.elapsedSeconds + k
      && (e.session.elapsedSeconds + k < e.session.totalSeconds ==>
            TickStep(started, t0 + k * 1000 + d).session
              == started.session.(elapsedSeconds := e.session.elapsedSeconds + k))
      && (e.session.elapsedSeconds + k >= e.session.totalSeconds ==>
            TickStep(started, t0 + k * 1000 + d) == CompleteStep(started, t0 + k * 1000 + d))
  {
    var started := StartStep(e, t0);
    var now := t0 + k * 1000 + d;
    assert now - started.session.startTime.value == (e.session.elapsedSeconds + k) * 1000 + d;
  }

  /** Pausing at `tp` and starting again at `ts` resumes from the progress
      counted before the pause. */
  lemma PauseResumeKeepsProgress(e: EngineState, tp: int, ts: int, k: nat)
    requires ts - e.session.elapsedSeconds * 1000 != 0
    ensures var resumed := StartStep(PauseStep(e, tp), ts);
      && resumed.session.status == Running
      && resumed.session.elapsedSeconds == e.session.elapsedSeconds
      && ElapsedAt(resumed.session, ts + k * 1000) == e.session.elapsedSeconds + k
  {
    var resumed := StartStep(PauseStep(e, tp), ts);
    assert ts + k * 1000 - resumed.session.startTime.value == (e.session.elapsedSeconds + k) * 1000;
  }

  function TickAll(e: EngineState, times: seq<int>): EngineState
    decreases |times|
  {
    if times == [] then e else TickAll(TickStep(e, times[0]), times[1..])
  }

  /** A series of ticks that do not reach the end of the session leaves the
      progress computed from the last tick's time alone: ticks re-read the
      start time and do not accumulate. */
  lemma {:induction false} TicksFollowTheClock(e: EngineState, times: seq<int>)
    requires TickApplies(e.session) && times != []
    requires forall i :: 0 <= i < |times| ==> ElapsedAt(e.session, times[i]) < e.session.totalSeconds
    ensures TickAll(e, times)
      == e.(session := e.session.(elapsedSeconds := ElapsedAt(e.session, times[|times| - 1])))
    decreases |times|
  {
    var e1 := TickStep(e, times[0]);
    assert e1 == e.(session := e.session.(elapsedSeconds := ElapsedAt(e.session, times[0])));
    if |times| > 1 {
      var rest := times[1..];
      assert forall i :: 0 <= i < |rest| ==> ElapsedAt(e1.session, rest[i]) < e1.session.totalSeconds by {
        forall i | 0 <= i < |rest| ensures ElapsedAt(e1.session, rest[i]) < e1.session.totalSeconds {
          assert rest[i] == times[i + 1];
        }
      }
      TicksFollowTheClock(e1, rest);
      assert rest[|rest| - 1] == times[|times| - 1];
    }
  }

  // ---------------------------------------------------------------------------
  // The shape of a run
  // ---------------------------------------------------------------------------

  /** The session after `k` transitions, or None once the run has ended. */
  function Advance(s: Session, cfg: Config, now: int, k: nat): Option<Session>
    decreases k
  {
    if k == 0 then Some(s)
    else match NextSession(s, cfg, now)
      case None => None
      case Some(next) => Advance(next, cfg, now, k - 1)
  }

  lemma {:induction false} AdvanceLast(s: Session, cfg: Config, now: int, k: nat)
    ensures Advance(s, cfg, now, k + 1) ==
      match Advance(s, cfg, now, k)
      case None => None
      case Some(x) => NextSession(x, cfg, now)
    decreases k
  {
    if k > 0 {
      match NextSession(s, cfg, now)
      case None =>
      case Some(next) => AdvanceLast(next, cfg, now, k - 1);
    }
  }

  /** From a fresh session, transition `j` (counting from 0) leads to the
      session with goal j/2 + 1: WORK when j is even, otherwise the break
      after (j+1)/2 finished work sessions, long exactly when that number is a
      multiple of the long-break interval. */
  lemma {:induction false} Schedule(cfg: Config, now: int, j: nat)
    requires ValidConfig(cfg) && j < 2 * cfg.totalGoals
    ensures Advance(InitialSession(cfg), cfg, now, j).Some?
    ensures var s := Advance(InitialSession(cfg), cfg, now, j).value;
      && s.currentGoal == j / 2 + 1
      && s.completedGoals == (j + 1) / 2
      && (s.currentType == Work <==> j % 2 == 0)
      && (s.currentType == LongBreak <==> j % 2 == 1 && s.completedGoals % cfg.sessionsUntilLongBreak == 0)
    decreases j
  {
    if j > 0 {
      Schedule(cfg, now, j - 1);
      AdvanceLast(InitialSession(cfg), cfg, now, j - 1);
    }
  }

  /** A run from a fresh session has exactly 2 * totalGoals sessions, work
      and break alternating; the next transition resets the engine. */
  lemma {:induction false} RunLength(cfg: Config, now: int, k: nat)
    requires ValidConfig(cfg)
    ensures Advance(InitialSession(cfg), cfg, now, k).Some? <==> k < 2 * cfg.totalGoals
    decreases k
  {
    var n := 2 * cfg.totalGoals;
    if k < n {
      Schedule(cfg, now, k);
    } else if k == n {
      Schedule(cfg, now, k - 1);
      AdvanceLast(InitialSession(cfg), cfg, now, k - 1);
    } else {
      RunLength(cfg, now, k - 1);
      AdvanceLast(InitialSession(cfg), cfg, now, k - 1);
    }
  }

  /** The run ends only after the break of the last goal, with every goal
      counted. */
  lemma RunEndsAfterAllGoals(s: Session, cfg: Config, now: int)
    requires ValidConfig(cfg) && RunInvariant(s, cfg)
    requires NextSession(s, cfg, now).None?
    ensures s.currentType != Work
    ensures s.currentGoal == cfg.totalGoals && s.completedGoals == cfg.totalGoals
  {
  }

  /** Breaks never count goals and work sessions never advance the goal. */
  lemma CountersMoveOneAtATime(s: Session, cfg: Config, now: int)
    requires NextSession(s, cfg, now).Some?
    ensures var n := NextSession(s, cfg, now).value;
      && (n.completedGoals == s.completedGoals + 1 <==> s.currentType == Work)
      && (n.currentGoal == s.currentGoal + 1 <==> s.currentType != Work)
      && (n.completedGoals == s.completedGoals || n.currentGoal == s.currentGoal)
  {
  }

  // ---------------------------------------------------------------------------
  // Concrete behaviours
  // ---------------------------------------------------------------------------

  const ManualConfig: Config := Config(25, 5, 15, 4, false, 4, true)

  /** 25-minute work, manual start: 1500 seconds after the start, the tick
      completes the session and the engine waits IDLE in a 5-minute short
      break of the same goal, one goal counted. */
  lemma FirstPomodoroExample(t0: int)
    requires t0 != 0
    ensures var e := TickStep(StartStep(Boot(Some(ManualConfig), None), t0), t0 + 1500 * 1000);
      && e.session == Session(1, ShortBreak, Idle, None, None, 0, 300, 1)
      && !e.timerActive && e.storedSession == Some(e.session)
  {
  }

  /** The fourth work session is followed by the long break. */
  lemma FourthPomodoroExample(now: int)
    ensures NextSession(Session(4, Work, Completed, None, None, 1500, 1500, 3), ManualConfig, now)
      == Some(Session(4, LongBreak, Idle, None, None, 0, 900, 4))
  {
  }

  /** The long break of the last goal ends the run: the engine resets. */
  lemma LastBreakResets(e: EngineState, now: int)
    requires e.config == ManualConfig
    requires e.session == Session(4, LongBreak, Running, Some(now), None, 900, 900, 4)
    ensures CompleteStep(e, now).session == InitialSession(ManualConfig)
    ensures CompleteStep(e, now).storedSession == None
  {
  }

  /** A reset during the 3-second pause after a completion does not cancel
      the scheduled transition: it then runs on the fresh session, counting a
      work session that was discarded. */
  lemma ResetDoesNotCancelPendingTransition(e: EngineState, t1: int, t2: int)
    requires e.config.autoStartNext && ValidConfig(e.config) && e.config.sessionsUntilLongBreak > 1
    ensures var after := FireStep(ResetStep(CompleteStep(e, t1)), t2);
      && after.session.currentType == ShortBreak
      && after.session.currentGoal == 1
      && after.session.completedGoals == 1
      && after.session.status == Running
      && after.timerActive
  {
  }

  /** Two completions within the 3-second pause schedule two transitions. */
  lemma DoubleSkipSchedulesTwoTransitions(e: EngineState, t1: int, t2: int)
    requires e.config.autoStartNext
    ensures CompleteStep(CompleteStep(e, t1), t2).pendingTransitions == e.pendingTransitions + 2
  {
  }

  /** A session stored while RUNNING is restored without its tick, and start
      is then a no-op: it ticks again only after a pause. */
  lemma RestoredRunningSessionIsStalled(c: Option<Config>, s: Session, now: int)
    requires s.status == Running
    ensures !Boot(c, Some(s)).timerActive
    ensures StartStep(Boot(c, Some(s)), now) == Boot(c, Some(s))
  {
  }

  /** The tick subscription can outlive its session: start during the pause
      after a completion, switch auto-start off, and let the scheduled
      transition fire; the engine is IDLE with the timer still subscribed. */
  lemma OrphanTimerAfterLateConfigChange(t: int)
    requires t > 0
    ensures var evs := [SkipEv(t), StartEv(t), ConfigEv(ManualConfig), FireEv(t)];
      && ValidTrace(Boot(None, None), t, evs)
      && Run(Boot(None, None), t, evs).timerActive
      && Run(Boot(None, None), t, evs).session.status == Idle
  {
    var e0 := Boot(None, None);
    var e1 := CompleteStep(e0, t);
    var e2 := StartStep(e1, t);
    var e3 := UpdateConfigStep(e2, ManualConfig);
    var e4 := FireStep(e3, t);
    var evs := [SkipEv(t), StartEv(t), ConfigEv(ManualConfig), FireEv(t)];
    assert evs[1..] == [StartEv(t), ConfigEv(ManualConfig), FireEv(t)];
    assert evs[1..][1..] == [ConfigEv(ManualConfig), FireEv(t)];
    assert evs[1..][1..][1..] == [FireEv(t)];
    assert ValidTrace(e4, t, []);
    assert ValidTrace(e3, t, [FireEv(t)]);
    assert ValidTrace(e2, t, evs[1..][1..]);
    assert ValidTrace(e1, t, evs[1..]);
    assert Run(e3, t, [FireEv(t)]) == e4;
    assert Run(e2, t, [ConfigEv(ManualConfig), FireEv(t)]) == e4;
    assert Run(e1, t, [StartEv(t), ConfigEv(ManualConfig), FireEv(t)]) == e4;
  }
}
