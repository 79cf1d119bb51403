/**
 * The procedures built on the retry primitive: the friend filter, manual
 * friend choice, the TP charge, and the checks without retry of the main
 * loop (restore indicator, skip toggle, extra "next" button).  Each is a
 * method taking the automation, proved against a function that gives its
 * outcome, its events and the capture attempts it uses.
 */
module Procedures {
  import opened Wrappers
  import opened Vision
  import opened Device
  import opened LocateAndAct
  import opened UseButtonFilter
  import opened FilterChoice

  const FilterButton: Point := Point(747, 1623)
  const SortButton: Point := Point(786, 203)

  /** A run followed by another that starts where it ended. */
  function Then(a: Run, b: Run): Run
  {
    Run(b.outcome, a.events + b.events, a.frames + b.frames)
  }

  /** A run that, when it succeeds, goes on with the fixed events `tail`. */
  function Settle(r: Run, tail: seq<Event>): Run
  {
    if r.outcome == Success then Run(Success, r.events + tail, r.frames) else r
  }

  /** A run that, when it succeeds, goes on with `next`; otherwise `next` never starts. */
  function Chain(r: Run, next: Run): Run
  {
    if r.outcome == Success then Then(r, next) else r
  }

  /** What `except Exception: return False` makes of a run. */
  function Absorb(r: Run): Run
  {
    if r.outcome == Fault then Run(Failure, r.events, r.frames) else r
  }

  /** `find_template(name, shot)` on an already captured frame, primary directory, threshold 0.8. */
  function Peek(env: Oracles, cfg: Config, frame: nat, name: string): Option<Point>
  {
    FindTemplate(env.look(frame, cfg.templatePath, name), DefaultThreshold)
  }

  // ---------------------------------------------------------------- filter

  /** `run_filter_sequence` started at frame `start`. */
  function FilterSequenceRun(env: Oracles, cfg: Config, start: nat): Run
  {
    var lead := [Tap(FilterButton), Sleep(500), Tap(SortButton), Sleep(500)];
    match Choose(cfg.rarity, cfg.speciality)
    case None => Run(Failure, lead, 0)
    case Some(c) =>
      var ok := FindAndTapRun(env, cfg, "ok.png", 10, 0, start);
      Run(ok.outcome,
          lead + [Tap(c.rarity), Sleep(200), Tap(c.speciality), Sleep(200)] + ok.events +
          (if ok.outcome == Success then [Sleep(500)] else []),
          ok.frames)
  }

  lemma TapsOfFour(a: Point, b: Point, m: nat, n: nat)
    ensures Taps([Tap(a), Sleep(m), Tap(b), Sleep(n)]) == [a, b]
    ensures Shots([Tap(a), Sleep(m), Tap(b), Sleep(n)]) == 0
  {
    var evs := [Tap(a), Sleep(m), Tap(b), Sleep(n)];
    assert evs == [Tap(a)] + ([Sleep(m)] + ([Tap(b)] + [Sleep(n)]));
    CountsAppend([Tap(a)], [Sleep(m)] + ([Tap(b)] + [Sleep(n)]));
    CountsAppend([Sleep(m)], [Tap(b)] + [Sleep(n)]);
    CountsAppend([Tap(b)], [Sleep(n)]);
    CountsOne(Tap(a));
    CountsOne(Tap(b));
    CountsOne(Sleep(m));
    CountsOne(Sleep(n));
  }

  /**
   * The filter taps the filter and sort buttons; then, when either setting
   * is outside its table, it fails without any further tap; otherwise it
   * taps exactly the rarity and then the speciality coordinate of the
   * chosen pair and succeeds exactly when OK is found and tapped.
   */
  lemma FilterSequenceTaps(env: Oracles, cfg: Config, start: nat)
    ensures var r := FilterSequenceRun(env, cfg, start);
      && (Choose(cfg.rarity, cfg.speciality).None? ==>
            r.outcome == Failure && Taps(r.events) == [FilterButton, SortButton])
      && (Choose(cfg.rarity, cfg.speciality).Some? ==>
            var c := Choose(cfg.rarity, cfg.speciality).value;
            var ok := FindAndTapRun(env, cfg, "ok.png", 10, 0, start);
            && r.outcome == ok.outcome
            && |Taps(r.events)| == (if r.outcome == Success then 5 else 4)
            && Taps(r.events)[..4] == [FilterButton, SortButton, c.rarity, c.speciality])
  {
    var r := FilterSequenceRun(env, cfg, start);
    var lead := [Tap(FilterButton), Sleep(500), Tap(SortButton), Sleep(500)];
    TapsOfFour(FilterButton, SortButton, 500, 500);
    match Choose(cfg.rarity, cfg.speciality)
    case None =>
    case Some(c) =>
      var ok := FindAndTapRun(env, cfg, "ok.png", 10, 0, start);
      RetryTaps(env, PrimaryQuery(cfg, "ok.png", 10, 0), start, 0);
      var choice := [Tap(c.rarity), Sleep(200), Tap(c.speciality), Sleep(200)];
      var tail := if ok.outcome == Success then [Sleep(500)] else [];
      TapsOfFour(c.rarity, c.speciality, 200, 200);
      CountsAppend(lead + choice + ok.events, tail);
      CountsAppend(lead + choice, ok.events);
      CountsAppend(lead, choice);
      if tail != [] {
        CountsOne(Sleep(500));
      }
  }

  /** Two taps, each followed by the same pause. */
  method TapTwice(a: Automation, p: Point, q: Point, ms: nat)
    modifies a`events
    ensures a.events == old(a.events) + [Tap(p), Sleep(ms), Tap(q), Sleep(ms)]
  {
    a.TapCoordinate(p);
    a.Wait(ms);
    a.TapCoordinate(q);
    a.Wait(ms);
  }

  method RunFilterSequence(a: Automation) returns (r: Outcome)
    requires a.Valid()
    modifies a
    ensures a.Valid() && a.live == old(a.live)
    ensures var run := FilterSequenceRun(a.env, a.cfg, old(a.nextFrame));
      && r == run.outcome
      && a.events == old(a.events) + run.events
      && a.nextFrame == old(a.nextFrame) + run.frames
  {
    ghost var before, f0 := a.events, a.nextFrame;
    ghost var lead := [Tap(FilterButton), Sleep(500), Tap(SortButton), Sleep(500)];
    ghost var ok := FindAndTapRun(a.env, a.cfg, "ok.png", 10, 0, f0);
    TapTwice(a, FilterButton, SortButton, 500);
    var choice := Choose(a.cfg.rarity, a.cfg.speciality);
    if choice.None? {
      return Failure;
    }
    ghost var picked := [Tap(choice.value.rarity), Sleep(200), Tap(choice.value.speciality), Sleep(200)];
    ghost var tail: seq<Event> := if ok.outcome == Success then [Sleep(500)] else [];
    assert FilterSequenceRun(a.env, a.cfg, f0) == Run(ok.outcome, lead + picked + ok.events + tail, ok.frames);
    TapTwice(a, choice.value.rarity, choice.value.speciality, 200);
    assert a.events == before + (lead + picked);
    r := FindAndTap(a, "ok.png", 10, 0);
    AppendAssoc(before, lead + picked, ok.events);
    if r == Success {
      a.Wait(500);
    }
    AppendAssoc(before, lead + picked + ok.events, tail);
  }

  // ---------------------------------------------------------------- manual friend choice

  /** Step 4 of `manual_choose_friend`: the filter, then following.png once more. */
  function FilterThenFollowRun(env: Oracles, cfg: Config, start: nat): Run
  {
    var filter := FilterSequenceRun(env, cfg, start);
    Chain(filter, FindAndTapMultiRun(env, cfg, "following.png", 5, 200, None, 700, start + filter.frames))
  }

  /** Steps 2 to 4 of `manual_choose_friend`: following.png, and the filter only when it is not found. */
  function FollowOrFilterRun(env: Oracles, cfg: Config, start: nat): Run
  {
    var first := FindAndTapMultiRun(env, cfg, "following.png", 5, 200, None, 700, start);
    if first.outcome != Failure then first
    else Then(first, FilterThenFollowRun(env, cfg, start + first.frames))
  }

  /** `manual_choose_friend` started at frame `start`. */
  function ManualChooseRun(env: Oracles, cfg: Config, start: nat): Run
  {
    var plus := FindAndTapMultiRun(env, cfg, "plus.png", 10, 1000, None, DefaultThreshold, start);
    Chain(plus, FollowOrFilterRun(env, cfg, start + plus.frames))
  }

  /**
   * After plus.png, manual choice succeeds exactly when following.png is
   * tapped, on the first search or after a successful filter; the filter
   * runs only when the first search fails without raising.
   */
  lemma FollowOrFilterOutcome(env: Oracles, cfg: Config, start: nat)
    ensures var r := FollowOrFilterRun(env, cfg, start);
      var first := FindAndTapMultiRun(env, cfg, "following.png", 5, 200, None, 700, start);
      var filter := FilterSequenceRun(env, cfg, start + first.frames);
      var second := FindAndTapMultiRun(env, cfg, "following.png", 5, 200, None, 700, start + first.frames + filter.frames);
      && (r.outcome == Success <==>
            first.outcome == Success ||
            (first.outcome == Failure && filter.outcome == Success && second.outcome == Success))
      && (first.outcome != Failure ==> r == first)
      && (first.outcome == Failure ==> first.events + filter.events <= r.events)
  {
    var r := FollowOrFilterRun(env, cfg, start);
    var first := FindAndTapMultiRun(env, cfg, "following.png", 5, 200, None, 700, start);
    var filter := FilterSequenceRun(env, cfg, start + first.frames);
    var later := FilterThenFollowRun(env, cfg, start + first.frames);
    if first.outcome == Failure {
      assert filter.events <= later.events;
    }
  }

  /**
   * Manual choice succeeds exactly when plus.png is tapped and following.png
   * is then tapped, on the first search or after a successful filter; the
   * filter runs only when the first search for following.png fails.
   */
  lemma ManualChooseOutcome(env: Oracles, cfg: Config, start: nat)
    ensures var r := ManualChooseRun(env, cfg, start);
      var plus := FindAndTapMultiRun(env, cfg, "plus.png", 10, 1000, None, DefaultThreshold, start);
      var first := FindAndTapMultiRun(env, cfg, "following.png", 5, 200, None, 700, start + plus.frames);
      var filter := FilterSequenceRun(env, cfg, start + plus.frames + first.frames);
      var second := FindAndTapMultiRun(env, cfg, "following.png", 5, 200, None, 700, start + plus.frames + first.frames + filter.frames);
      && (r.outcome == Success <==>
            plus.outcome == Success &&
            (first.outcome == Success ||
             (first.outcome == Failure && filter.outcome == Success && second.outcome == Success)))
      && (plus.outcome != Success ==> r == plus)
      && (plus.outcome == Success && first.outcome != Failure ==> r.events == plus.events + first.events)
      && (plus.outcome == Success && first.outcome == Failure ==>
            plus.events + first.events + filter.events <= r.events)
  {
    var plus := FindAndTapMultiRun(env, cfg, "plus.png", 10, 1000, None, DefaultThreshold, start);
    var rest := FollowOrFilterRun(env, cfg, start + plus.frames);
    FollowOrFilterOutcome(env, cfg, start + plus.frames);
    var first := FindAndTapMultiRun(env, cfg, "following.png", 5, 200, None, 700, start + plus.frames);
    var filter := FilterSequenceRun(env, cfg, start + plus.frames + first.frames);
    if plus.outcome == Success && first.outcome == Failure {
      AppendAssoc(plus.events, first.events, filter.events);
      PrefixExtend(plus.events, first.events + filter.events, rest.events);
    }
  }

  method ManualChooseFriend(a: Automation) returns (r: Outcome)
    requires a.Valid()
    modifies a
    ensures a.Valid() && a.live == old(a.live)
    ensures var run := ManualChooseRun(a.env, a.cfg, old(a.nextFrame));
      && r == run.outcome
      && a.events == old(a.events) + run.events
      && a.nextFrame == old(a.nextFrame) + run.frames
  {
    ghost var e0, f0 := a.events, a.nextFrame;
    ghost var plus := FindAndTapMultiRun(a.env, a.cfg, "plus.png", 10, 1000, None, DefaultThreshold, f0);
    ghost var rest := FollowOrFilterRun(a.env, a.cfg, f0 + plus.frames);
    r := FindAndTapMulti(a, "plus.png", 10, 1000, None, DefaultThreshold);
    if r != Success {
      return;
    }
    r := FollowOrFilter(a);
    AppendAssoc(e0, plus.events, rest.events);
  }

  /** Steps 2 to 4 of `manual_choose_friend`. */
  method FollowOrFilter(a: Automation) returns (r: Outcome)
    requires a.Valid()
    modifies a
    ensures a.Valid() && a.live == old(a.live)
    ensures var run := FollowOrFilterRun(a.env, a.cfg, old(a.nextFrame));
      && r == run.outcome
      && a.events == old(a.events) + run.events
      && a.nextFrame == old(a.nextFrame) + run.frames
  {
    ghost var e0, f0 := a.events, a.nextFrame;
    ghost var first := FindAndTapMultiRun(a.env, a.cfg, "following.png", 5, 200, None, 700, f0);
    ghost var rest := FilterThenFollowRun(a.env, a.cfg, f0 + first.frames);
    r := FindAndTapMulti(a, "following.png", 5, 200, None, 700);
    if r != Failure {
      return;
    }
    r := FilterThenFollow(a);
    AppendAssoc(e0, first.events, rest.events);
  }

  /** Step 4 of `manual_choose_friend`. */
  method FilterThenFollow(a: Automation) returns (r: Outcome)
    requires a.Valid()
    modifies a
    ensures a.Valid() && a.live == old(a.live)
    ensures var run := FilterThenFollowRun(a.env, a.cfg, old(a.nextFrame));
      && r == run.outcome
      && a.events == old(a.events) + run.events
      && a.nextFrame == old(a.nextFrame) + run.frames
  {
    ghost var e0, f0 := a.events, a.nextFrame;
    ghost var filter := FilterSequenceRun(a.env, a.cfg, f0);
    ghost var second := FindAndTapMultiRun(a.env, a.cfg, "following.png", 5, 200, None, 700, f0 + filter.frames);
    r := RunFilterSequence(a);
    if r != Success {
      return;
    }
    r := FindAndTapMulti(a, "following.png", 5, 200, None, 700);
    AppendAssoc(e0, filter.events, second.events);
  }

  // ---------------------------------------------------------------- TP charge

  /** Steps 2 and 3 of `tp_charge`: one frame, the filtered "use" buttons, a tap on the first. */
  function UseStepRun(env: Oracles, frame: nat): Run
  {
    if !env.captureOk(frame) then Run(Fault, [], 1)
    else
      var buttons := UseButtons(env.useScan(frame), TpBrightness);
      if buttons == [] then Run(Failure, [Capture(frame), Remove(frame)], 1)
      else Run(Success, [Capture(frame), Tap(buttons[0]), Remove(frame)], 1)
  }

  /** The use step fails exactly when no button survives the filter, and otherwise taps the first one only. */
  lemma UseStepTapsFirst(env: Oracles, frame: nat)
    ensures var r := UseStepRun(env, frame);
      var buttons := UseButtons(env.useScan(frame), TpBrightness);
      && (r.outcome == Success <==> env.captureOk(frame) && buttons != [])
      && (r.outcome == Success ==> Taps(r.events) == [buttons[0]])
      && (r.outcome != Success ==> Taps(r.events) == [])
      && Shots(r.events) <= 1
  {
    var r := UseStepRun(env, frame);
    if env.captureOk(frame) {
      var buttons := UseButtons(env.useScan(frame), TpBrightness);
      CountsOne(Capture(frame));
      CountsOne(Remove(frame));
      if buttons == [] {
        CountsAppend([Capture(frame)], [Remove(frame)]);
        assert r.events == [Capture(frame)] + [Remove(frame)];
      } else {
        CountsOne(Tap(buttons[0]));
        CountsAppend([Capture(frame)], [Tap(buttons[0])] + [Remove(frame)]);
        CountsAppend([Tap(buttons[0])], [Remove(frame)]);
        assert r.events == [Capture(frame)] + ([Tap(buttons[0])] + [Remove(frame)]);
      }
    }
  }

  /** Steps 1 to 3 of `tp_charge`: open the restore dialog and use the first item. */
  function ChargeOpenRun(env: Oracles, cfg: Config, start: nat): Run
  {
    var restore := Settle(FindAndTapRun(env, cfg, "restore.png", 10, 0, start), [Sleep(500)]);
    Chain(restore, Settle(UseStepRun(env, start + restore.frames), [Sleep(500)]))
  }

  /** Steps 4 to 6 of `tp_charge`: maximum, OK, close. */
  function ChargeConfirmRun(env: Oracles, cfg: Config, start: nat): Run
  {
    var maxed := FindAndTapRun(env, cfg, "max.png", 10, 0, start);
    var ok := Settle(FindAndTapRun(env, cfg, "ok.png", 10, 0, start + maxed.frames), [Sleep(1500)]);
    var upToClose := Chain(maxed, ok);
    Chain(upToClose, Settle(FindAndTapRun(env, cfg, "close.png", 20, 0, start + upToClose.frames), [Sleep(500)]))
  }

  /** `tp_charge` started at frame `start`; it catches every exception and reports `False`. */
  function TpChargeRun(env: Oracles, cfg: Config, start: nat): Run
  {
    var open := ChargeOpenRun(env, cfg, start);
    Absorb(Chain(open, ChargeConfirmRun(env, cfg, start + open.frames)))
  }

  /**
   * `tp_charge` never raises; it fails when restore.png was tapped but no
   * "use" button survives the filter, and it succeeds only after the use
   * step tapped the first surviving button.
   */
  lemma TpChargeNeedsUseButton(env: Oracles, cfg: Config, start: nat)
    ensures var r := TpChargeRun(env, cfg, start);
      var r1 := Settle(FindAndTapRun(env, cfg, "restore.png", 10, 0, start), [Sleep(500)]);
      var use := UseStepRun(env, start + r1.frames);
      && r.outcome != Fault
      && (r.outcome == Success ==> r1.outcome == Success && use.outcome == Success)
      && (r1.outcome == Success && UseButtons(env.useScan(start + r1.frames), TpBrightness) == [] ==> r.outcome == Failure)
      && (r1.outcome == Success ==> r1.events + use.events <= r.events)
  {
    var r := TpChargeRun(env, cfg, start);
    var r1 := Settle(FindAndTapRun(env, cfg, "restore.png", 10, 0, start), [Sleep(500)]);
    var use := UseStepRun(env, start + r1.frames);
    var open := ChargeOpenRun(env, cfg, start);
    if r1.outcome == Success {
      var pause := if use.outcome == Success then [Sleep(500)] else [];
      AppendAssoc(r1.events, use.events, pause);
      var tail := if open.outcome == Success then ChargeConfirmRun(env, cfg, start + open.frames).events else [];
      AppendAssoc(r1.events + use.events, pause, tail);
      assert r.events == (r1.events + use.events) + (pause + tail);
    }
  }

  /** Steps 2 and 3 of `tp_charge`. */
  method TapFirstUseButton(a: Automation) returns (r: Outcome)
    requires a.Valid()
    modifies a
    ensures a.Valid() && a.live == old(a.live)
    ensures var run := UseStepRun(a.env, old(a.nextFrame));
      && r == run.outcome
      && a.events == old(a.events) + run.events
      && a.nextFrame == old(a.nextFrame) + run.frames
  {
    var shot := a.TakeScreenshot();
    if shot.None? {
      return Fault;
    }
    var frame := shot.value;
    var useCoords := FindUseButtons(a.env.useScan(frame), TpBrightness);
    if useCoords == [] {
      a.RemoveScreenshot(frame);
      return Failure;
    }
    a.TapCoordinate(useCoords[0]);
    a.RemoveScreenshot(frame);
    r := Success;
  }

  /** Steps 1 to 3 of `tp_charge`. */
  method OpenAndUse(a: Automation) returns (r: Outcome)
    requires a.Valid()
    modifies a
    ensures a.Valid() && a.live == old(a.live)
    ensures var run := ChargeOpenRun(a.env, a.cfg, old(a.nextFrame));
      && r == run.outcome
      && a.events == old(a.events) + run.events
      && a.nextFrame == old(a.nextFrame) + run.frames
  {
    ghost var e0, f0 := a.events, a.nextFrame;
    r := FindAndTap(a, "restore.png", 10, 0);
    ghost var restore := FindAndTapRun(a.env, a.cfg, "restore.png", 10, 0, f0);
    if r != Success {
      return;
    }
    a.Wait(500);
    AppendAssoc(e0, restore.events, [Sleep(500)]);
    ghost var dialog := restore.events + [Sleep(500)];
    ghost var f1 := a.nextFrame;
    r := TapFirstUseButton(a);
    ghost var use := UseStepRun(a.env, f1);
    AppendAssoc(e0, dialog, use.events);
    if r != Success {
      return;
    }
    a.Wait(500);
    AppendAssoc(e0 + dialog, use.events, [Sleep(500)]);
    AppendAssoc(e0, dialog, use.events + [Sleep(500)]);
  }

  /** Steps 4 to 6 of `tp_charge`. */
  method ConfirmCharge(a: Automation) returns (r: Outcome)
    requires a.Valid()
    modifies a
    ensures a.Valid() && a.live == old(a.live)
    ensures var run := ChargeConfirmRun(a.env, a.cfg, old(a.nextFrame));
      && r == run.outcome
      && a.events == old(a.events) + run.events
      && a.nextFrame == old(a.nextFrame) + run.frames
  {
    ghost var e0, f0 := a.events, a.nextFrame;
    r := FindAndTap(a, "max.png", 10, 0);
    ghost var maxed := FindAndTapRun(a.env, a.cfg, "max.png", 10, 0, f0);
    if r != Success {
      return;
    }
    ghost var f1 := a.nextFrame;
    r := FindAndTap(a, "ok.png", 10, 0);
    ghost var ok := FindAndTapRun(a.env, a.cfg, "ok.png", 10, 0, f1);
    AppendAssoc(e0, maxed.events, ok.events);
    if r != Success {
      return;
    }
    a.Wait(1500);
    AppendAssoc(e0 + maxed.events, ok.events, [Sleep(1500)]);
    AppendAssoc(e0, maxed.events, ok.events + [Sleep(1500)]);
    ghost var upToClose := maxed.events + (ok.events + [Sleep(1500)]);
    ghost var f2 := a.nextFrame;
    r := FindAndTap(a, "close.png", 20, 0);
    ghost var close := FindAndTapRun(a.env, a.cfg, "close.png", 20, 0, f2);
    AppendAssoc(e0, upToClose, close.events);
    if r != Success {
      return;
    }
    a.Wait(500);
    AppendAssoc(e0 + upToClose, close.events, [Sleep(500)]);
    AppendAssoc(e0, upToClose, close.events + [Sleep(500)]);
  }

  method TpCharge(a: Automation) returns (r: Outcome)
    requires a.Valid()
    modifies a
    ensures a.Valid() && a.live == old(a.live)
    ensures var run := TpChargeRun(a.env, a.cfg, old(a.nextFrame));
      && r == run.outcome
      && a.events == old(a.events) + run.events
      && a.nextFrame == old(a.nextFrame) + run.frames
  {
    ghost var e0, f0 := a.events, a.nextFrame;
    ghost var open := ChargeOpenRun(a.env, a.cfg, f0);
    ghost var f1 := f0 + open.frames;
    ghost var confirm := ChargeConfirmRun(a.env, a.cfg, f1);
    assert TpChargeRun(a.env, a.cfg, f0) == Absorb(Chain(open, confirm));
    r := OpenAndUse(a);
    if r != Success {
      return Failure;
    }
    r := ConfirmCharge(a);
    AppendAssoc(e0, open.events, confirm.events);
    if r != Success {
      return Failure;
    }
  }

  // ---------------------------------------------------------------- checks without retry

  /** Step 6.5: one frame; if restore.png shows, charge TP while that frame is kept. */
  function RestorePeekRun(env: Oracles, cfg: Config, start: nat): Run
  {
    RestorePeekWith(env, cfg, start, Charges(env, cfg))
  }

  /** The TP charge started at each capture attempt. */
  function Charges(env: Oracles, cfg: Config): nat -> Run
  {
    (start: nat) => TpChargeRun(env, cfg, start)
  }

  /** Step 6.5 with the charge it starts described by `charge`. */
  function RestorePeekWith(env: Oracles, cfg: Config, start: nat, charge: nat -> Run): Run
  {
    if !env.captureOk(start) then Run(Fault, [], 1)
    else
      match Peek(env, cfg, start, "restore.png")
      case None => Run(Failure, [Capture(start), Remove(start)], 1)
      case Some(_) =>
        var c := charge(start + 1);
        Run(c.outcome, [Capture(start)] + c.events + [Remove(start)], 1 + c.frames)
  }

  /** The restore check succeeds (and step 6 is retried) only when restore.png shows and the charge succeeds. */
  lemma RestorePeekOutcome(env: Oracles, cfg: Config, start: nat)
    ensures var r := RestorePeekRun(env, cfg, start);
      && (r.outcome == Success <==>
            env.captureOk(start) && Peek(env, cfg, start, "restore.png").Some? &&
            TpChargeRun(env, cfg, start + 1).outcome == Success)
      && (r.outcome == Fault <==> !env.captureOk(start))
  {
    var c := TpChargeRun(env, cfg, start + 1);
    assert Charges(env, cfg)(start + 1) == c;
    TpChargeNeedsUseButton(env, cfg, start + 1);
  }

  /** The automation's charge, under `charge`. */
  ghost predicate RunsCharge(a: Automation, charge: nat -> Run)
    reads a
  {
    forall x {:trigger TpChargeRun(a.env, a.cfg, x)} :: charge(x) == TpChargeRun(a.env, a.cfg, x)
  }

  /** The charge of step 6.5, with the frame that showed restore.png removed afterwards. */
  method ChargeKeepingFrame(a: Automation, frame: nat, ghost charge: nat -> Run) returns (r: Outcome)
    requires a.Valid() && frame in a.live && RunsCharge(a, charge)
    modifies a
    ensures a.Valid() && a.live == old(a.live) - {frame}
    ensures var c := charge(old(a.nextFrame));
      && r == c.outcome
      && a.events == old(a.events) + c.events + [Remove(frame)]
      && a.nextFrame == old(a.nextFrame) + c.frames
  {
    assert charge(a.nextFrame) == TpChargeRun(a.env, a.cfg, a.nextFrame);
    r := TpCharge(a);
    a.RemoveScreenshot(frame);
  }

  /** Step 6.5 against any description `charge` of the TP charge. */
  method PeekRestoreWith(a: Automation, ghost charge: nat -> Run) returns (r: Outcome)
    requires a.Valid() && RunsCharge(a, charge)
    modifies a
    ensures a.Valid() && a.live == old(a.live)
    ensures var run := RestorePeekWith(a.env, a.cfg, old(a.nextFrame), charge);
      && r == run.outcome
      && a.events == old(a.events) + run.events
      && a.nextFrame == old(a.nextFrame) + run.frames
  {
    var shot := a.TakeScreenshot();
    if shot.None? {
      return Fault;
    }
    var frame := shot.value;
    var coords := FindTemplate(a.env.look(frame, a.cfg.templatePath, "restore.png"), DefaultThreshold);
    if coords.None? {
      a.RemoveScreenshot(frame);
      return Failure;
    }
    ghost var c := charge(frame + 1);
    r := ChargeKeepingFrame(a, frame, charge);
    AppendAssoc(old(a.events), [Capture(frame)], c.events);
    AppendAssoc(old(a.events), [Capture(frame)] + c.events, [Remove(frame)]);
  }

  method PeekRestore(a: Automation) returns (r: Outcome)
    requires a.Valid()
    modifies a
    ensures a.Valid() && a.live == old(a.live)
    ensures var run := RestorePeekRun(a.env, a.cfg, old(a.nextFrame));
      && r == run.outcome
      && a.events == old(a.events) + run.events
      && a.nextFrame == old(a.nextFrame) + run.frames
  {
    r := PeekRestoreWith(a, Charges(a.env, a.cfg));
  }

  /** Step 12's re-check: another double tap, a single tap, or nothing (skip_on_2.png only logs). */
  function SkipReaction(env: Oracles, cfg: Config, frame: nat): seq<Event>
  {
    match Peek(env, cfg, frame, "skip_off.png")
    case Some(q) => [Tap(q), Sleep(200), Tap(q)]
    case None =>
      match Peek(env, cfg, frame, "skip_on_1.png")
      case Some(q) => [Tap(q)]
      case None => []
  }

  /** Step 12 started at frame `start`; success means skip_off.png was found at first. */
  function SkipToggleRun(env: Oracles, cfg: Config, start: nat): Run
  {
    if !env.captureOk(start) then Run(Fault, [], 1)
    else
      match Peek(env, cfg, start, "skip_off.png")
      case None => Run(Failure, [Capture(start), Remove(start)], 1)
      case Some(p) =>
        var doubleTap := [Capture(start), Tap(p), Sleep(200), Tap(p), Sleep(200)];
        if !env.captureOk(start + 1) then Run(Fault, doubleTap + [Remove(start)], 2)
        else Run(Success, doubleTap + [Capture(start + 1)] + SkipReaction(env, cfg, start + 1) + [Remove(start + 1), Remove(start)], 2)
  }

  /**
   * Exactly one of the re-check branches runs: two more taps when
   * skip_off.png is still shown, else one when skip_on_1.png is, else none;
   * and nothing is tapped unless skip_off.png was found on the first frame,
   * which is then tapped twice.
   */
  lemma SkipToggleTaps(env: Oracles, cfg: Config, start: nat)
    ensures var r := SkipToggleRun(env, cfg, start);
      var first := env.captureOk(start) && Peek(env, cfg, start, "skip_off.png").Some?;
      var recheck := first && env.captureOk(start + 1);
      var n := |Taps(r.events)|;
      && (n == 0 <==> !first)
      && (first ==> n >= 2 && Taps(r.events)[..2] == [Peek(env, cfg, start, "skip_off.png").value, Peek(env, cfg, start, "skip_off.png").value])
      && (n == 4 <==> recheck && Peek(env, cfg, start + 1, "skip_off.png").Some?)
      && (n == 3 <==> recheck && Peek(env, cfg, start + 1, "skip_off.png").None? && Peek(env, cfg, start + 1, "skip_on_1.png").Some?)
      && (n == 2 <==> first && (!recheck || (Peek(env, cfg, start + 1, "skip_off.png").None? && Peek(env, cfg, start + 1, "skip_on_1.png").None?)))
      && (n == 4 ==> var q := Peek(env, cfg, start + 1, "skip_off.png").value; Taps(r.events)[2..] == [q, q])
      && (n == 3 ==> Taps(r.events)[2] == Peek(env, cfg, start + 1, "skip_on_1.png").value)
      && Shots(r.events) <= 2
  {
    var r := SkipToggleRun(env, cfg, start);
    if env.captureOk(start) {
      match Peek(env, cfg, start, "skip_off.png")
      case None =>
        CountsOne(Capture(start));
        CountsOne(Remove(start));
        CountsAppend([Capture(start)], [Remove(start)]);
        assert r.events == [Capture(start)] + [Remove(start)];
      case Some(p) =>
        var doubleTap := [Capture(start), Tap(p), Sleep(200), Tap(p), Sleep(200)];
        DoubleTapCounts(start, p);
        if !env.captureOk(start + 1) {
          CountsOne(Remove(start));
          CountsAppend(doubleTap, [Remove(start)]);
        } else {
          var recheck := [Capture(start + 1)] + SkipReaction(env, cfg, start + 1) + [Remove(start + 1), Remove(start)];
          RecheckCounts(env, cfg, start + 1, start);
          ReactionCounts(env, cfg, start + 1);
          AppendAssoc(doubleTap, [Capture(start + 1)], SkipReaction(env, cfg, start + 1));
          AppendAssoc(doubleTap, [Capture(start + 1)] + SkipReaction(env, cfg, start + 1), [Remove(start + 1), Remove(start)]);
          assert r.events == doubleTap + recheck;
          CountsAppend(doubleTap, recheck);
        }
    }
  }

  lemma DoubleTapCounts(frame: nat, p: Point)
    ensures var evs := [Capture(frame), Tap(p), Sleep(200), Tap(p), Sleep(200)];
      Taps(evs) == [p, p] && Shots(evs) == 1
  {
    var evs := [Capture(frame), Tap(p), Sleep(200), Tap(p), Sleep(200)];
    assert evs == [Capture(frame)] + [Tap(p), Sleep(200), Tap(p), Sleep(200)];
    CountsAppend([Capture(frame)], [Tap(p), Sleep(200), Tap(p), Sleep(200)]);
    CountsOne(Capture(frame));
    TapsOfFour(p, p, 200, 200);
  }

  lemma RecheckCounts(env: Oracles, cfg: Config, frame: nat, first: nat)
    ensures var evs := [Capture(frame)] + SkipReaction(env, cfg, frame) + [Remove(frame), Remove(first)];
      Taps(evs) == Taps(SkipReaction(env, cfg, frame)) && Shots(evs) == 1
  {
    var reaction := SkipReaction(env, cfg, frame);
    ReactionCounts(env, cfg, frame);
    assert [Remove(frame), Remove(first)] == [Remove(frame)] + [Remove(first)];
    CountsOne(Remove(frame));
    CountsOne(Remove(first));
    CountsOne(Capture(frame));
    CountsAppend([Remove(frame)], [Remove(first)]);
    CountsAppend([Capture(frame)] + reaction, [Remove(frame), Remove(first)]);
    CountsAppend([Capture(frame)], reaction);
  }

  lemma ReactionCounts(env: Oracles, cfg: Config, frame: nat)
    ensures var evs := SkipReaction(env, cfg, frame);
      && Shots(evs) == 0
      && (Peek(env, cfg, frame, "skip_off.png").Some? ==>
            var q := Peek(env, cfg, frame, "skip_off.png").value; Taps(evs) == [q, q])
      && (Peek(env, cfg, frame, "skip_off.png").None? && Peek(env, cfg, frame, "skip_on_1.png").Some? ==>
            Taps(evs) == [Peek(env, cfg, frame, "skip_on_1.png").value])
      && (Peek(env, cfg, frame, "skip_off.png").None? && Peek(env, cfg, frame, "skip_on_1.png").None? ==> Taps(evs) == [])
  {
    match Peek(env, cfg, frame, "skip_off.png")
    case Some(q) =>
      var evs := [Tap(q), Sleep(200), Tap(q)];
      assert evs == [Tap(q)] + ([Sleep(200)] + [Tap(q)]);
      CountsAppend([Tap(q)], [Sleep(200)] + [Tap(q)]);
      CountsAppend([Sleep(200)], [Tap(q)]);
      CountsOne(Tap(q));
      CountsOne(Sleep(200));
    case None =>
      match Peek(env, cfg, frame, "skip_on_1.png")
      case Some(q) => CountsOne(Tap(q));
      case None =>
  }

  /** The re-check of step 12 on the frame `checkFrame`. */
  method ReactToSkipCheck(a: Automation, checkFrame: nat)
    modifies a`events
    ensures a.events == old(a.events) + SkipReaction(a.env, a.cfg, checkFrame)
  {
    var coordsOff := FindTemplate(a.env.look(checkFrame, a.cfg.templatePath, "skip_off.png"), DefaultThreshold);
    if coordsOff.Some? {
      a.TapCoordinate(coordsOff.value);
      a.Wait(200);
      a.TapCoordinate(coordsOff.value);
    } else {
      var coordsOn1 := FindTemplate(a.env.look(checkFrame, a.cfg.templatePath, "skip_on_1.png"), DefaultThreshold);
      if coordsOn1.Some? {
        a.TapCoordinate(coordsOn1.value);
      }
    }
  }

  method CheckSkipToggle(a: Automation) returns (r: Outcome)
    requires a.Valid()
    modifies a
    ensures a.Valid() && a.live == old(a.live)
    ensures var run := SkipToggleRun(a.env, a.cfg, old(a.nextFrame));
      && r == run.outcome
      && a.events == old(a.events) + run.events
      && a.nextFrame == old(a.nextFrame) + run.frames
  {
    var shot := a.TakeScreenshot();
    if shot.None? {
      return Fault;
    }
    var frame := shot.value;
    var coords := FindTemplate(a.env.look(frame, a.cfg.templatePath, "skip_off.png"), DefaultThreshold);
    if coords.None? {
      a.RemoveScreenshot(frame);
      return Failure;
    }
    var p := coords.value;
    TapTwice(a, p, p, 200);
    ghost var doubleTap := [Capture(frame), Tap(p), Sleep(200), Tap(p), Sleep(200)];
    assert a.events == old(a.events) + doubleTap;
    var check := a.TakeScreenshot();
    if check.None? {
      a.RemoveScreenshot(frame);
      AppendAssoc(old(a.events), doubleTap, [Remove(frame)]);
      return Fault;
    }
    var checkFrame := check.value;
    AppendAssoc(old(a.events), doubleTap, [Capture(checkFrame)]);
    ghost var seen := doubleTap + [Capture(checkFrame)];
    ghost var reaction := SkipReaction(a.env, a.cfg, checkFrame);
    ReactToSkipCheck(a, checkFrame);
    AppendAssoc(old(a.events), seen, reaction);
    a.RemoveScreenshot(checkFrame);
    a.RemoveScreenshot(frame);
    AppendAssoc(old(a.events) + (seen + reaction), [Remove(checkFrame)], [Remove(frame)]);
    AppendAssoc(old(a.events), seen + reaction, [Remove(checkFrame)] + [Remove(frame)]);
    assert [Remove(checkFrame)] + [Remove(frame)] == [Remove(checkFrame), Remove(frame)];
    r := Success;
  }

  /** `n` rounds of a tap at `p` and half a second's wait. */
  function Burst(p: Point, n: nat): seq<Event>
  {
    if n == 0 then [] else Burst(p, n - 1) + [Tap(p), Sleep(500)]
  }

  lemma {:induction false} BurstTaps(p: Point, n: nat)
    ensures Taps(Burst(p, n)) == Repeat(p, n) && Shots(Burst(p, n)) == 0
  {
    if n > 0 {
      BurstTaps(p, n - 1);
      CountsAppend(Burst(p, n - 1), [Tap(p), Sleep(500)]);
      assert [Tap(p), Sleep(500)] == [Tap(p)] + [Sleep(500)];
      CountsAppend([Tap(p)], [Sleep(500)]);
      CountsOne(Tap(p));
      CountsOne(Sleep(500));
    }
  }

  /** Step 14.5: one frame; when next.png shows, tap it five times. */
  function NextPeekRun(env: Oracles, cfg: Config, start: nat): Run
  {
    if !env.captureOk(start) then Run(Fault, [], 1)
    else
      match Peek(env, cfg, start, "next.png")
      case Some(p) => Run(Success, [Capture(start)] + Burst(p, 5) + [Remove(start)], 1)
      case None => Run(Failure, [Capture(start), Remove(start)], 1)
  }

  /** The extra "next" check taps five times at the button when it shows and never otherwise. */
  lemma NextPeekTaps(env: Oracles, cfg: Config, start: nat)
    ensures var r := NextPeekRun(env, cfg, start);
      && (r.outcome == Success <==> env.captureOk(start) && Peek(env, cfg, start, "next.png").Some?)
      && (r.outcome == Success ==> Taps(r.events) == Repeat(Peek(env, cfg, start, "next.png").value, 5))
      && (r.outcome != Success ==> Taps(r.events) == [])
      && Shots(r.events) <= 1
  {
    var r := NextPeekRun(env, cfg, start);
    if env.captureOk(start) {
      CountsOne(Capture(start));
      CountsOne(Remove(start));
      match Peek(env, cfg, start, "next.png")
      case Some(p) =>
        BurstTaps(p, 5);
        CountsAppend([Capture(start)] + Burst(p, 5), [Remove(start)]);
        CountsAppend([Capture(start)], Burst(p, 5));
      case None =>
        CountsAppend([Capture(start)], [Remove(start)]);
        assert r.events == [Capture(start)] + [Remove(start)];
    }
  }

  method PeekNextButton(a: Automation) returns (r: Outcome)
    requires a.Valid()
    modifies a
    ensures a.Valid() && a.live == old(a.live)
    ensures var run := NextPeekRun(a.env, a.cfg, old(a.nextFrame));
      && r == run.outcome
      && a.events == old(a.events) + run.events
      && a.nextFrame == old(a.nextFrame) + run.frames
  {
    var shot := a.TakeScreenshot();
    if shot.None? {
      return Fault;
    }
    var frame := shot.value;
    var coords := FindTemplate(a.env.look(frame, a.cfg.templatePath, "next.png"), DefaultThreshold);
    if coords.None? {
      a.RemoveScreenshot(frame);
      return Failure;
    }
    ghost var mark := a.events;
    for i := 0 to 5
      invariant a.Valid() && a.live == old(a.live) + {frame} && a.nextFrame == old(a.nextFrame) + 1
      invariant a.events == mark + Burst(coords.value, i)
    {
      a.TapCoordinate(coords.value);
      a.Wait(500);
    }
    a.RemoveScreenshot(frame);
    r := Success;
  }
}
