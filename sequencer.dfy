/**
 * The control flow of the main automation loop.  One cycle walks through
 * the steps of a run (Career, next, auto-select, optional manual friend
 * choice, the start-career / TP-charge loop, the skip dance, confirm, menu,
 * the give-up / recovery loop, give-up).  Each step is a phase whose run
 * gives an outcome, and a fixed table says where each outcome leads: on to
 * another phase, back to a fresh cycle (`continue`), out of the automation
 * (`break`), or into the cool-down after an exception.
 *
 * The two inner `while True` loops of a cycle need not terminate, so a
 * cycle is measured with fuel: the number of phases it may still run.
 */
module Sequencer {
  import opened Wrappers
  import opened Vision
  import opened Device
  import opened LocateAndAct
  import opened Procedures

  /** The steps of one cycle, in the order of the source. */
  datatype Phase =
    | Career | Next1 | Next2 | AutoSelect | AutoOk | AutoNext
    | ManualChoose
    | StartCareer1 | RestorePeek | QuickCheck
    | StartCareer2 | Skip | SkipBtn | TapAfterSkip | SkipToggle
    | Confirm | NextPeek | Menu
    | RecoveryPeek | RecoveryMenu | GiveUp1 | GiveUp2

  /** Where an outcome leads. */
  datatype Transition =
    | Goto(target: Phase)   // go on with another step of the same cycle
    | Restart               // `continue`: a fresh cycle from Career
    | Stop                  // `break`: the automation ends
    | Crash                 // an exception reached the main loop
    | Finish                // the last step succeeded: the cycle is complete

  /** How a cycle ended. */
  datatype End = Completed | Restarted | Stopped | Crashed | OutOfFuel

  /** One executed phase: which, with what outcome, from which capture attempt. */
  datatype Visit = Visit(phase: Phase, outcome: Outcome, frame: nat)

  /** A cycle: how it ended, its events, the capture attempts it used, and the phases it ran. */
  datatype Cycle = Cycle(end: End, events: seq<Event>, frames: nat, trail: seq<Visit>)

  /** The cool-down after an exception, in milliseconds. */
  const CoolDown: nat := 10000

  /** A plain step of the cycle: `find_and_tap(name, 10)`. */
  function Tap10(env: Oracles, cfg: Config, name: string, start: nat): Run
  {
    FindAndTapRun(env, cfg, name, 10, 0, start)
  }

  /** What running phase `p` from capture attempt `start` does, with the waits that follow it. */
  function PhaseRun(env: Oracles, cfg: Config, p: Phase, start: nat): Run
  {
    match p
    case Career => Settle(Tap10(env, cfg, "Career.png", start), [Sleep(cfg.careerWait)])
    case Next1 => Settle(FindAndTapRun(env, cfg, "next.png", cfg.nextAttempts, cfg.nextWait, start), [Sleep(500)])
    case Next2 => Settle(FindAndTapRun(env, cfg, "next.png", cfg.nextAttempts, cfg.nextWait, start), [Sleep(500)])
    case AutoSelect => Settle(Tap10(env, cfg, "auto_select_1.png", start), [Sleep(500)])
    case AutoOk => Settle(Tap10(env, cfg, "ok.png", start), [Sleep(500)])
    case AutoNext => Settle(Tap10(env, cfg, "next.png", start), [Sleep(2000)])
    case ManualChoose => if cfg.manualChoose then ManualChooseRun(env, cfg, start) else Run(Success, [], 0)
    case StartCareer1 => Settle(Tap10(env, cfg, "start_career_1.png", start), [Sleep(500)])
    case RestorePeek => RestorePeekRun(env, cfg, start)
    case QuickCheck => FindAndTapRun(env, cfg, "start_career_1.png", 1, 0, start)
    case StartCareer2 => Settle(Tap10(env, cfg, "start_career_2.png", start), [Sleep(cfg.startCareerWait)])
    case Skip => Settle(Tap10(env, cfg, "skip.png", start), [Sleep(500)])
    case SkipBtn => Tap10(env, cfg, "skip_btn.png", start)
    case TapAfterSkip => Run(Success, [Sleep(cfg.skipWait), Tap(cfg.tapAfterSkip)], 0)
    case SkipToggle => SkipToggleRun(env, cfg, start)
    case Confirm => Settle(Tap10(env, cfg, "confirm.png", start), [Sleep(1000), Sleep(cfg.confirmWait)])
    case NextPeek => NextPeekRun(env, cfg, start)
    case Menu => Tap10(env, cfg, "menu.png", start)
    case RecoveryPeek => NextPeekRun(env, cfg, start)
    case RecoveryMenu => Tap10(env, cfg, "menu.png", start)
    case GiveUp1 => FindAndTapRun(env, cfg, "give_up_1.png", 5, 0, start)
    case GiveUp2 => Settle(FindAndTapRun(env, cfg, "give_up_2.png", 5, 0, start), [Sleep(cfg.loopWait)])
  }

  /** A step whose failure sends the loop to a fresh cycle. */
  function Guarded(o: Outcome, next: Phase): Transition
  {
    if o == Success then Goto(next) else Restart
  }

  /** The transition table of a cycle. */
  function Step(p: Phase, o: Outcome): Transition
  {
    if o == Fault then Crash
    else
      match p
      case Career => Guarded(o, Next1)
      case Next1 => Guarded(o, Next2)
      case Next2 => Guarded(o, AutoSelect)
      case AutoSelect => Guarded(o, AutoOk)
      case AutoOk => Guarded(o, AutoNext)
      case AutoNext => Guarded(o, ManualChoose)
      case ManualChoose => if o == Success then Goto(StartCareer1) else Stop
      case StartCareer1 => if o == Success then Goto(RestorePeek) else Goto(QuickCheck)
      case RestorePeek => if o == Success then Goto(StartCareer1) else Goto(QuickCheck)
      case QuickCheck => Guarded(o, StartCareer2)
      case StartCareer2 => Guarded(o, Skip)
      case Skip => Guarded(o, SkipBtn)
      case SkipBtn => Guarded(o, TapAfterSkip)
      case TapAfterSkip => Goto(SkipToggle)
      case SkipToggle => Goto(Confirm)
      case Confirm => Guarded(o, NextPeek)
      case NextPeek => Goto(Menu)
      case Menu => Guarded(o, GiveUp1)
      case GiveUp1 => if o == Success then Goto(GiveUp2) else Goto(RecoveryPeek)
      case RecoveryPeek => Goto(RecoveryMenu)
      case RecoveryMenu => Goto(GiveUp1)
      case GiveUp2 => if o == Success then Finish else Restart
  }

  /** How a cycle ends on a transition that leaves it. */
  function EndOf(t: Transition): End
  {
    match t
    case Goto(_) => OutOfFuel
    case Restart => Restarted
    case Stop => Stopped
    case Crash => Crashed
    case Finish => Completed
  }

  /** The steps whose failure restarts the cycle. */
  predicate RestartsOnFailure(p: Phase)
  {
    !(p.ManualChoose? || p.StartCareer1? || p.RestorePeek? || p.TapAfterSkip? || p.SkipToggle? ||
      p.NextPeek? || p.RecoveryPeek? || p.RecoveryMenu? || p.GiveUp1?)
  }

  /** The steps a completed cycle must have passed: the guards, the manual choice and give_up_1. */
  predicate Mandatory(p: Phase)
  {
    RestartsOnFailure(p) || p.ManualChoose? || p.GiveUp1?
  }

  /** The position of a phase; the recovery phases come before give_up_1, which they return to. */
  function Rank(p: Phase): nat
  {
    match p
    case Career => 0
    case Next1 => 1
    case Next2 => 2
    case AutoSelect => 3
    case AutoOk => 4
    case AutoNext => 5
    case ManualChoose => 6
    case StartCareer1 => 7
    case RestorePeek => 8
    case QuickCheck => 9
    case StartCareer2 => 10
    case Skip => 11
    case SkipBtn => 12
    case TapAfterSkip => 13
    case SkipToggle => 14
    case Confirm => 15
    case NextPeek => 16
    case Menu => 17
    case RecoveryPeek => 18
    case RecoveryMenu => 19
    case GiveUp1 => 20
    case GiveUp2 => 21
  }

  /** What each phase does, given the capture attempt it starts from. */
  type Runner = (Phase, nat) -> Run

  /** Where each outcome of each phase leads. */
  type Table = (Phase, Outcome) -> Transition

  /** The phases of the automation as a runner. */
  function Phases(env: Oracles, cfg: Config): Runner
  {
    (p: Phase, start: nat) => PhaseRun(env, cfg, p, start)
  }

  /**
   * The rest of a cycle from phase `p` at capture attempt `start`, the
   * phases doing what `run` says and leading where `step` says, running at
   * most `fuel` phases.
   */
  function CycleFrom(run: Runner, step: Table, p: Phase, start: nat, fuel: nat): Cycle
    decreases fuel
  {
    if fuel == 0 then Cycle(OutOfFuel, [], 0, [])
    else
      var r := run(p, start);
      var v := Visit(p, r.outcome, start);
      match step(p, r.outcome)
      case Goto(q) =>
        var rest := CycleFrom(run, step, q, start + r.frames, fuel - 1);
        Cycle(rest.end, r.events + rest.events, r.frames + rest.frames, [v] + rest.trail)
      case t => Cycle(EndOf(t), r.events, r.frames, [v])
  }

  /** A whole cycle of the main loop. */
  function CycleRun(env: Oracles, cfg: Config, start: nat, fuel: nat): Cycle
  {
    CycleFrom(Phases(env, cfg), Step, Career, start, fuel)
  }

  /** The phases of a trail that succeeded. */
  function Passed(trail: seq<Visit>): set<Phase>
  {
    set v | v in trail && v.outcome == Success :: v.phase
  }

  // ---------------------------------------------------------------- the table

  /** start_career_1 is entered only after the manual choice step succeeds or a TP charge succeeds. */
  lemma StartCareerReentry(p: Phase, o: Outcome)
    ensures Step(p, o) == Goto(StartCareer1) <==>
              o == Success && (p == ManualChoose || p == RestorePeek)
  {
  }

  /** The cycle stops for good only when the manual friend choice fails. */
  lemma StopOnlyAtManualChoice(p: Phase, o: Outcome)
    ensures Step(p, o) == Stop <==> p == ManualChoose && o == Failure
  {
  }

  /** A restart follows exactly the failure of a guarded step. */
  lemma RestartOnlyOnGuardFailure(p: Phase, o: Outcome)
    ensures Step(p, o) == Restart <==> o == Failure && RestartsOnFailure(p)
  {
  }

  /** Never skipping a mandatory step: a forward jump passes only this one, and only on success. */
  lemma StepKeepsMandatory(p: Phase, o: Outcome, g: Phase)
    requires Step(p, o).Goto? && Mandatory(g)
    requires Rank(p) <= Rank(g) < Rank(Step(p, o).target)
    ensures g == p && o == Success
  {
  }

  // ---------------------------------------------------------------- cycles

  /** The last visit of a non-empty trail. */
  function Last(trail: seq<Visit>): Visit
    requires |trail| > 0
  {
    trail[|trail| - 1]
  }

  /**
   * The trail of a cycle is the run it describes: it starts at `p`, every
   * visit records the outcome of its phase from its frame, consecutive
   * visits follow the table, and unless the fuel ran out the last visit's
   * transition is how the cycle ended.
   */
  lemma {:induction false} CycleTrail(run: Runner, step: Table, p: Phase, start: nat, fuel: nat)
    ensures var c := CycleFrom(run, step, p, start, fuel);
      && |c.trail| <= fuel
      && (fuel > 0 ==> |c.trail| > 0 && c.trail[0].phase == p && c.trail[0].frame == start)
      && (forall i :: 0 <= i < |c.trail| ==>
            c.trail[i].outcome == run(c.trail[i].phase, c.trail[i].frame).outcome)
      && (forall i :: 0 <= i < |c.trail| - 1 ==>
            step(c.trail[i].phase, c.trail[i].outcome) == Goto(c.trail[i + 1].phase))
      && (c.end != OutOfFuel <==> |c.trail| > 0 && !step(Last(c.trail).phase, Last(c.trail).outcome).Goto?)
      && (c.end != OutOfFuel ==> EndOf(step(Last(c.trail).phase, Last(c.trail).outcome)) == c.end)
    decreases fuel
  {
    if fuel > 0 {
      var r := run(p, start);
      var v := Visit(p, r.outcome, start);
      match step(p, r.outcome)
      case Goto(q) =>
        CycleTrail(run, step, q, start + r.frames, fuel - 1);
        var rest := CycleFrom(run, step, q, start + r.frames, fuel - 1);
        var c := CycleFrom(run, step, p, start, fuel);
        assert c.trail == [v] + rest.trail;
        forall i | 0 <= i < |c.trail| - 1
          ensures step(c.trail[i].phase, c.trail[i].outcome) == Goto(c.trail[i + 1].phase)
        {
          if i > 0 {
            assert c.trail[i] == rest.trail[i - 1];
          }
        }
        if |rest.trail| > 0 {
          assert Last(c.trail) == Last(rest.trail);
        }
      case _ =>
    }
  }

  /** A transition from `p` that goes past `g`: a jump beyond it, or the end of the cycle. */
  predicate Skips(t: Transition, g: Phase)
  {
    t.Finish? || (t.Goto? && Rank(g) < Rank(t.target))
  }

  /** A table that only goes past a mandatory step from that very step, on its success. */
  ghost predicate KeepsMandatory(step: Table)
  {
    forall p, o, g {:trigger Skips(step(p, o), g)} ::
      Mandatory(g) && Rank(p) <= Rank(g) && Skips(step(p, o), g) ==> g == p && o == Success
  }

  /** The automation's table never goes past a mandatory step it has not passed. */
  lemma TableKeepsMandatory()
    ensures KeepsMandatory(Step)
  {
    forall p, o, g | Mandatory(g) && Rank(p) <= Rank(g) && Skips(Step(p, o), g)
      ensures g == p && o == Success
    {
      if Step(p, o).Goto? {
        StepKeepsMandatory(p, o, g);
      }
    }
  }

  /** One step of `CompletedFrom`: a mandatory step at or after `v` was passed by `v` or by the rest. */
  lemma PassedAcrossStep(step: Table, v: Visit, q: Phase, rest: seq<Visit>, g: Phase)
    requires KeepsMandatory(step) && step(v.phase, v.outcome) == Goto(q)
    requires Mandatory(g) && Rank(v.phase) <= Rank(g)
    requires Rank(q) <= Rank(g) ==> g in Passed(rest)
    ensures g in Passed([v] + rest)
  {
    if Rank(g) < Rank(q) {
      assert Skips(step(v.phase, v.outcome), g);
      assert v in [v] + rest;
    } else {
      var w :| w in rest && w.outcome == Success && w.phase == g;
      assert w in [v] + rest;
    }
  }

  /** A cycle that completes from `p` has passed every mandatory step from `p` on. */
  lemma {:induction false} CompletedFrom(run: Runner, step: Table, p: Phase, start: nat, fuel: nat)
    requires KeepsMandatory(step)
    ensures var c := CycleFrom(run, step, p, start, fuel);
      c.end == Completed ==> forall g :: Mandatory(g) && Rank(p) <= Rank(g) ==> g in Passed(c.trail)
    decreases fuel
  {
    var c := CycleFrom(run, step, p, start, fuel);
    if fuel > 0 {
      var r := run(p, start);
      var v := Visit(p, r.outcome, start);
      match step(p, r.outcome)
      case Goto(q) =>
        CompletedFrom(run, step, q, start + r.frames, fuel - 1);
        var rest := CycleFrom(run, step, q, start + r.frames, fuel - 1);
        assert c.trail == [v] + rest.trail;
        if c.end == Completed {
          forall g | Mandatory(g) && Rank(p) <= Rank(g)
            ensures g in Passed(c.trail)
          {
            PassedAcrossStep(step, v, q, rest.trail, g);
          }
        }
      case Finish =>
        forall g | Mandatory(g) && Rank(p) <= Rank(g)
          ensures g in Passed(c.trail)
        {
          assert Skips(step(p, r.outcome), g);
          assert v in c.trail;
        }
      case _ =>
    }
  }

  /** A cycle that left the table ends with the last event of its last phase, when that phase logged any. */
  ghost predicate EndsWithLastPhase(run: Runner, c: Cycle)
  {
    c.end != OutOfFuel && |c.trail| > 0 && |run(Last(c.trail).phase, Last(c.trail).frame).events| > 0 ==>
      var tail := run(Last(c.trail).phase, Last(c.trail).frame).events;
      |c.events| > 0 && c.events[|c.events| - 1] == tail[|tail| - 1]
  }

  /** A cycle that leaves the table ends with the last event of its last phase. */
  lemma {:induction false} CycleLastEvent(run: Runner, step: Table, p: Phase, start: nat, fuel: nat)
    ensures var c := CycleFrom(run, step, p, start, fuel);
      (c.end != OutOfFuel ==> |c.trail| > 0) && EndsWithLastPhase(run, c)
    decreases fuel
  {
    if fuel > 0 {
      var r := run(p, start);
      var v := Visit(p, r.outcome, start);
      match step(p, r.outcome)
      case Goto(q) =>
        CycleLastEvent(run, step, q, start + r.frames, fuel - 1);
        var rest := CycleFrom(run, step, q, start + r.frames, fuel - 1);
        assert CycleFrom(run, step, p, start, fuel) == Cycle(rest.end, r.events + rest.events, r.frames + rest.frames, [v] + rest.trail);
        LastPhaseAcross(run, v, r.events, r.frames, rest);
      case t =>
        assert CycleFrom(run, step, p, start, fuel) == Cycle(EndOf(t), r.events, r.frames, [v]);
    }
  }

  /** A phase that hands over to the rest of a cycle keeps the rest's last event last. */
  lemma LastPhaseAcross(run: Runner, v: Visit, evs: seq<Event>, frames: nat, rest: Cycle)
    requires rest.end != OutOfFuel ==> |rest.trail| > 0
    requires EndsWithLastPhase(run, rest)
    ensures EndsWithLastPhase(run, Cycle(rest.end, evs + rest.events, frames + rest.frames, [v] + rest.trail))
  {
    var c := Cycle(rest.end, evs + rest.events, frames + rest.frames, [v] + rest.trail);
    if rest.end != OutOfFuel {
      assert Last(c.trail) == Last(rest.trail);
      if |rest.events| > 0 {
        assert c.events[|c.events| - 1] == rest.events[|rest.events| - 1];
      }
    }
  }

  /** With manual choice switched off the choice step always succeeds. */
  lemma ManualChoiceOff(env: Oracles, cfg: Config, start: nat)
    requires !cfg.manualChoose
    ensures PhaseRun(env, cfg, ManualChoose, start) == Run(Success, [], 0)
  {
  }

  /**
   * A cycle stops the automation exactly when its last step was the manual
   * choice and it failed; that needs manual choice to be switched on.
   */
  lemma CycleStops(env: Oracles, cfg: Config, start: nat, fuel: nat)
    ensures var c := CycleRun(env, cfg, start, fuel);
      && (c.end == Stopped <==>
            |c.trail| > 0 && Last(c.trail).phase == ManualChoose && Last(c.trail).outcome == Failure)
      && (c.end == Stopped ==> cfg.manualChoose)
  {
    CycleTrail(Phases(env, cfg), Step, Career, start, fuel);
    var c := CycleRun(env, cfg, start, fuel);
    if |c.trail| > 0 {
      var last := Last(c.trail);
      StopOnlyAtManualChoice(last.phase, last.outcome);
      if !cfg.manualChoose && last.phase == ManualChoose {
        ManualChoiceOff(env, cfg, last.frame);
      }
    }
  }

  /** A cycle ends in the cool-down exactly when its last step raised. */
  lemma CycleCrashes(env: Oracles, cfg: Config, start: nat, fuel: nat)
    ensures var c := CycleRun(env, cfg, start, fuel);
      c.end == Crashed <==> |c.trail| > 0 && Last(c.trail).outcome == Fault
  {
    CycleTrail(Phases(env, cfg), Step, Career, start, fuel);
  }

  /** A cycle restarts exactly when its last step was a guarded step that failed. */
  lemma CycleRestarts(env: Oracles, cfg: Config, start: nat, fuel: nat)
    ensures var c := CycleRun(env, cfg, start, fuel);
      c.end == Restarted <==>
        |c.trail| > 0 && Last(c.trail).outcome == Failure && RestartsOnFailure(Last(c.trail).phase)
  {
    CycleTrail(Phases(env, cfg), Step, Career, start, fuel);
    var c := CycleRun(env, cfg, start, fuel);
    if |c.trail| > 0 {
      var last := Last(c.trail);
      RestartOnlyOnGuardFailure(last.phase, last.outcome);
    }
  }

  /** A completed cycle passed every mandatory step and ends with the loop wait of step 18. */
  lemma CycleCompletes(env: Oracles, cfg: Config, start: nat, fuel: nat)
    ensures var c := CycleRun(env, cfg, start, fuel);
      c.end == Completed ==>
        && (forall g :: Mandatory(g) ==> g in Passed(c.trail))
        && |c.events| > 0 && c.events[|c.events| - 1] == Sleep(cfg.loopWait)
  {
    var run := Phases(env, cfg);
    var c := CycleRun(env, cfg, start, fuel);
    TableKeepsMandatory();
    CompletedFrom(run, Step, Career, start, fuel);
    CycleTrail(run, Step, Career, start, fuel);
    CycleLastEvent(run, Step, Career, start, fuel);
    if c.end == Completed {
      var last := Last(c.trail);
      assert last.phase == GiveUp2 && last.outcome == Success;
      var tail := PhaseRun(env, cfg, GiveUp2, last.frame).events;
      assert tail[|tail| - 1] == Sleep(cfg.loopWait);
    }
  }

  // ---------------------------------------------------------------- methods

  /** `find_and_tap` followed, on success, by the wait of the step. */
  method TapAndSettle(a: Automation, name: string, maxAttempts: int, waitAfter: nat, pause: nat) returns (r: Outcome)
    requires a.Valid()
    modifies a
    ensures a.Valid() && a.live == old(a.live)
    ensures var run := Settle(FindAndTapRun(a.env, a.cfg, name, maxAttempts, waitAfter, old(a.nextFrame)), [Sleep(pause)]);
      && r == run.outcome
      && a.events == old(a.events) + run.events
      && a.nextFrame == old(a.nextFrame) + run.frames
  {
    r := FindAndTap(a, name, maxAttempts, waitAfter);
    if r == Success {
      a.Wait(pause);
    }
  }

  /** One phase of a cycle, with the waits that follow it. */
  method DoPhase(a: Automation, p: Phase) returns (r: Outcome)
    requires a.Valid()
    modifies a
    ensures a.Valid() && a.live == old(a.live)
    ensures var run := PhaseRun(a.env, a.cfg, p, old(a.nextFrame));
      && r == run.outcome
      && a.events == old(a.events) + run.events
      && a.nextFrame == old(a.nextFrame) + run.frames
  {
    match p
    case Career =>
      r := TapAndSettle(a, "Career.png", 10, 0, a.cfg.careerWait);
    case Next1 =>
      r := TapAndSettle(a, "next.png", a.cfg.nextAttempts, a.cfg.nextWait, 500);
    case Next2 =>
      r := TapAndSettle(a, "next.png", a.cfg.nextAttempts, a.cfg.nextWait, 500);
    case AutoSelect =>
      r := TapAndSettle(a, "auto_select_1.png", 10, 0, 500);
    case AutoOk =>
      r := TapAndSettle(a, "ok.png", 10, 0, 500);
    case AutoNext =>
      r := TapAndSettle(a, "next.png", 10, 0, 2000);
    case ManualChoose =>
      if a.cfg.manualChoose {
        r := ManualChooseFriend(a);
      } else {
        r := Success;
      }
    case StartCareer1 =>
      r := TapAndSettle(a, "start_career_1.png", 10, 0, 500);
    case RestorePeek =>
      r := PeekRestore(a);
    case QuickCheck =>
      r := FindAndTap(a, "start_career_1.png", 1, 0);
    case StartCareer2 =>
      r := TapAndSettle(a, "start_career_2.png", 10, 0, a.cfg.startCareerWait);
    case Skip =>
      r := TapAndSettle(a, "skip.png", 10, 0, 500);
    case SkipBtn =>
      r := FindAndTap(a, "skip_btn.png", 10, 0);
    case TapAfterSkip =>
      a.Wait(a.cfg.skipWait);
      a.TapCoordinate(a.cfg.tapAfterSkip);
      r := Success;
    case SkipToggle =>
      r := CheckSkipToggle(a);
    case Confirm =>
      r := FindAndTap(a, "confirm.png", 10, 0);
      if r == Success {
        a.Wait(1000);
        a.Wait(a.cfg.confirmWait);
      }
    case NextPeek =>
      r := PeekNextButton(a);
    case Menu =>
      r := FindAndTap(a, "menu.png", 10, 0);
    case RecoveryPeek =>
      r := PeekNextButton(a);
    case RecoveryMenu =>
      r := FindAndTap(a, "menu.png", 10, 0);
    case GiveUp1 =>
      r := FindAndTap(a, "give_up_1.png", 5, 0);
    case GiveUp2 =>
      r := TapAndSettle(a, "give_up_2.png", 5, 0, a.cfg.loopWait);
  }

  /** The automation's phases on its device, under `phases`. */
  ghost predicate RunsPhases(a: Automation, phases: Runner)
    reads a
  {
    forall q, x {:trigger PhaseRun(a.env, a.cfg, q, x)} :: phases(q, x) == PhaseRun(a.env, a.cfg, q, x)
  }

  /** The automation's table, under `step`. */
  ghost predicate FollowsTable(step: Table)
  {
    forall q, o {:trigger Step(q, o)} :: step(q, o) == Step(q, o)
  }

  /**
   * One pass of the cycle's loop: run phase `p` and look up where its
   * outcome leads.  The rest of the cycle from `p` is this phase's events
   * followed, on a jump, by the rest of the cycle from the target.
   */
  method CyclePass(a: Automation, p: Phase, left: nat, ghost phases: Runner, ghost step: Table) returns (t: Transition)
    requires a.Valid() && left > 0 && RunsPhases(a, phases) && FollowsTable(step)
    modifies a
    ensures a.Valid() && a.live == old(a.live) && old(a.nextFrame) <= a.nextFrame
    ensures var here := CycleFrom(phases, step, p, old(a.nextFrame), left);
      if t.Goto? then
        var rest := CycleFrom(phases, step, t.target, a.nextFrame, left - 1);
        && a.events + rest.events == old(a.events) + here.events
        && rest.end == here.end
        && a.nextFrame + rest.frames == old(a.nextFrame) + here.frames
      else
        && a.events == old(a.events) + here.events
        && EndOf(t) == here.end
        && a.nextFrame == old(a.nextFrame) + here.frames
  {
    ghost var e0 := a.events;
    ghost var run := phases(p, a.nextFrame);
    assert run == PhaseRun(a.env, a.cfg, p, a.nextFrame);
    var r := DoPhase(a, p);
    t := Step(p, r);
    assert t == step(p, r);
    if t.Goto? {
      ghost var rest := CycleFrom(phases, step, t.target, a.nextFrame, left - 1);
      AppendAssoc(e0, run.events, rest.events);
    }
  }

  /** The phases of a cycle, from `p` on, for at most `left` phases. */
  method CycleLoop(a: Automation, p: Phase, left: nat, ghost phases: Runner, ghost step: Table) returns (end: End)
    requires a.Valid() && RunsPhases(a, phases) && FollowsTable(step)
    modifies a
    ensures a.Valid() && a.live == old(a.live)
    ensures var c := CycleFrom(phases, step, p, old(a.nextFrame), left);
      && end == c.end
      && a.events == old(a.events) + c.events
      && a.nextFrame == old(a.nextFrame) + c.frames
  {
    ghost var start := a.nextFrame;
    ghost var c := CycleFrom(phases, step, p, start, left);
    var q := p;
    var n := left;
    while n > 0
      invariant a.Valid() && a.live == old(a.live) && start <= a.nextFrame
      invariant var rest := CycleFrom(phases, step, q, a.nextFrame, n);
        && a.events + rest.events == old(a.events) + c.events
        && rest.end == c.end
        && a.nextFrame + rest.frames == start + c.frames
      decreases n
    {
      var t := CyclePass(a, q, n, phases, step);
      if t.Goto? {
        q := t.target;
        n := n - 1;
      } else {
        return EndOf(t);
      }
    }
    end := OutOfFuel;
  }

  /** One cycle of `run_automation_loop`, running at most `fuel` phases. */
  method RunCycle(a: Automation, fuel: nat) returns (end: End)
    requires a.Valid()
    modifies a
    ensures a.Valid() && a.live == old(a.live)
    ensures var c := CycleRun(a.env, a.cfg, old(a.nextFrame), fuel);
      && end == c.end
      && a.events == old(a.events) + c.events
      && a.nextFrame == old(a.nextFrame) + c.frames
  {
    end := CycleLoop(a, Career, fuel, Phases(a.env, a.cfg), Step);
  }

  // ---------------------------------------------------------------- the main loop

  /** A run of the main loop: how each cycle ended, the events, the capture attempts used. */
  datatype Session = Session(ends: seq<End>, events: seq<Event>, frames: nat)

  /** The cycle the main loop runs from each capture attempt. */
  function Cycles(env: Oracles, cfg: Config, fuel: nat): nat -> Cycle
  {
    (start: nat) => CycleRun(env, cfg, start, fuel)
  }

  /** What the main loop's exception handler adds after a cycle. */
  function CoolDownAfter(end: End): seq<Event>
  {
    if end == Crashed then [Sleep(CoolDown)] else []
  }

  /**
   * At most `cycles` cycles of the main loop: a crashed cycle is followed
   * by the cool-down; a stopped cycle ends the loop, and so does one whose
   * fuel ran out.
   */
  function SessionFrom(cycle: nat -> Cycle, start: nat, cycles: nat): Session
    decreases cycles
  {
    if cycles == 0 then Session([], [], 0)
    else
      var c := cycle(start);
      if c.end == Stopped || c.end == OutOfFuel then Session([c.end], c.events, c.frames)
      else
        var rest := SessionFrom(cycle, start + c.frames, cycles - 1);
        Session([c.end] + rest.ends, c.events + CoolDownAfter(c.end) + rest.events, c.frames + rest.frames)
  }

  /** The main loop for at most `cycles` cycles of at most `fuel` phases each. */
  function SessionRun(env: Oracles, cfg: Config, start: nat, cycles: nat, fuel: nat): Session
  {
    SessionFrom(Cycles(env, cfg, fuel), start, cycles)
  }

  /**
   * The capture attempt at which the `i`-th cycle of a session starts: each
   * cycle starts where the one before it left off (the cool-down takes no
   * screenshot).
   */
  function CycleStart(cycle: nat -> Cycle, start: nat, i: nat): nat
    decreases i
  {
    if i == 0 then start else CycleStart(cycle, start + cycle(start).frames, i - 1)
  }

  /**
   * The loop goes on after every cycle that completed, restarted or
   * crashed, and the `i`-th end is that of the cycle started where the
   * earlier ones left off.
   */
  lemma {:induction false} SessionEnds(cycle: nat -> Cycle, start: nat, cycles: nat)
    ensures var s := SessionFrom(cycle, start, cycles);
      && |s.ends| <= cycles
      && (cycles > 0 ==> |s.ends| > 0 && s.ends[0] == cycle(start).end)
      && (forall i :: 0 <= i < |s.ends| - 1 ==> s.ends[i] in {Completed, Restarted, Crashed})
      && (|s.ends| < cycles ==> |s.ends| > 0 && s.ends[|s.ends| - 1] in {Stopped, OutOfFuel})
      && (forall i :: 0 <= i < |s.ends| ==> s.ends[i] == cycle(CycleStart(cycle, start, i)).end)
    decreases cycles
  {
    if cycles > 0 {
      var c := cycle(start);
      if c.end != Stopped && c.end != OutOfFuel {
        SessionEnds(cycle, start + c.frames, cycles - 1);
        var rest := SessionFrom(cycle, start + c.frames, cycles - 1);
        var s := SessionFrom(cycle, start, cycles);
        assert s.ends == [c.end] + rest.ends;
        forall i | 0 <= i < |s.ends|
          ensures (i < |s.ends| - 1 ==> s.ends[i] in {Completed, Restarted, Crashed})
          ensures s.ends[i] == cycle(CycleStart(cycle, start, i)).end
        {
          if i > 0 {
            assert s.ends[i] == rest.ends[i - 1];
            assert CycleStart(cycle, start, i) == CycleStart(cycle, start + c.frames, i - 1);
          }
        }
      }
    }
  }

  /** The main loop stops for good only with manual choice switched on. */
  lemma SessionStops(env: Oracles, cfg: Config, start: nat, cycles: nat, fuel: nat)
    ensures Stopped in SessionRun(env, cfg, start, cycles, fuel).ends ==> cfg.manualChoose
  {
    var s := SessionRun(env, cfg, start, cycles, fuel);
    SessionEnds(Cycles(env, cfg, fuel), start, cycles);
    if Stopped in s.ends {
      var i :| 0 <= i < |s.ends| && s.ends[i] == Stopped;
      CycleStops(env, cfg, CycleStart(Cycles(env, cfg, fuel), start, i), fuel);
    }
  }

  /** `cycle` gives, from each capture attempt, the cycle this automation runs with `fuel`. */
  ghost predicate RunsCycles(a: Automation, fuel: nat, cycle: nat -> Cycle)
    reads a
  {
    forall x {:trigger CycleRun(a.env, a.cfg, x, fuel)} :: cycle(x) == CycleRun(a.env, a.cfg, x, fuel)
  }

  /**
   * One pass of the main loop's body: a cycle, and the cool-down when it
   * raised.  Either the loop ends here, or it goes on with `cycles - 1`
   * cycles from the next capture attempt.
   */
  method LoopPass(a: Automation, fuel: nat, left: nat, ghost cycle: nat -> Cycle) returns (end: End)
    requires a.Valid() && left > 0 && RunsCycles(a, fuel, cycle)
    modifies a
    ensures a.Valid() && a.live == old(a.live) && old(a.nextFrame) <= a.nextFrame
    ensures var here := SessionFrom(cycle, old(a.nextFrame), left);
      if end == Stopped || end == OutOfFuel then
        && here.ends == [end]
        && a.events == old(a.events) + here.events
        && a.nextFrame == old(a.nextFrame) + here.frames
      else
        var rest := SessionFrom(cycle, a.nextFrame, left - 1);
        && here.ends == [end] + rest.ends
        && a.events + rest.events == old(a.events) + here.events
        && a.nextFrame + rest.frames == old(a.nextFrame) + here.frames
  {
    ghost var e0 := a.events;
    ghost var c := CycleRun(a.env, a.cfg, a.nextFrame, fuel);
    assert c == cycle(a.nextFrame);
    end := RunCycle(a, fuel);
    if end == Crashed {
      a.Wait(CoolDown);
    }
    ghost var rest := SessionFrom(cycle, a.nextFrame, left - 1);
    AppendAssoc(e0, c.events + CoolDownAfter(end), rest.events);
  }

  /** The main loop against any description `cycle` of its cycles. */
  method LoopCycles(a: Automation, cycles: nat, fuel: nat, ghost cycle: nat -> Cycle) returns (ends: seq<End>)
    requires a.Valid() && RunsCycles(a, fuel, cycle)
    modifies a
    ensures a.Valid() && a.live == old(a.live)
    ensures var s := SessionFrom(cycle, old(a.nextFrame), cycles);
      && ends == s.ends
      && a.events == old(a.events) + s.events
      && a.nextFrame == old(a.nextFrame) + s.frames
  {
    ghost var start := a.nextFrame;
    ghost var s := SessionFrom(cycle, start, cycles);
    ends := [];
    var left := cycles;
    while left > 0
      invariant a.Valid() && a.live == old(a.live) && start <= a.nextFrame
      invariant var rest := SessionFrom(cycle, a.nextFrame, left);
        && ends + rest.ends == s.ends
        && a.events + rest.events == old(a.events) + s.events
        && a.nextFrame + rest.frames == start + s.frames
      decreases left
    {
      ghost var e0 := ends;
      var end := LoopPass(a, fuel, left, cycle);
      ends := ends + [end];
      if end == Stopped || end == OutOfFuel {
        return;
      }
      ghost var rest := SessionFrom(cycle, a.nextFrame, left - 1);
      assert ends + rest.ends == e0 + ([end] + rest.ends);
      left := left - 1;
    }
  }

  /** `run_automation_loop`, for at most `cycles` cycles; returns how each cycle ended. */
  method RunAutomationLoop(a: Automation, cycles: nat, fuel: nat) returns (ends: seq<End>)
    requires a.Valid()
    modifies a
    ensures a.Valid() && a.live == old(a.live)
    ensures var s := SessionRun(a.env, a.cfg, old(a.nextFrame), cycles, fuel);
      && ends == s.ends
      && a.events == old(a.events) + s.events
      && a.nextFrame == old(a.nextFrame) + s.frames
  {
    ends := LoopCycles(a, cycles, fuel, Cycles(a.env, a.cfg, fuel));
  }
}
