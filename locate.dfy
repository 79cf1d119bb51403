/**
 * Locate-And-Act: the bounded retry of `find_and_tap` and
 * `find_and_tap_multi`.  Each attempt captures a fresh frame, searches the
 * directories in order, taps the centre of a match (then waits
 * `wait_after` if it is positive) and in every case deletes the frame; a
 * miss is followed by a one-second wait unless it was the last attempt.
 * A capture that raises ends the call with a fault, as the exception
 * leaves `find_and_tap` uncaught.
 */
module LocateAndAct {
  import opened Wrappers
  import opened Vision
  import opened Device

  /** `True`, `False`, or an exception propagating out of the call. */
  datatype Outcome = Success | Failure | Fault

  /**
   * What a procedure does when started at frame number `start`: its
   * outcome, the events it causes, and how many capture attempts it uses.
   */
  datatype Run = Run(outcome: Outcome, events: seq<Event>, frames: nat)

  /**
   * One call of the retry: the template name, the directories to search in
   * order, the threshold, the attempt budget and the wait after a tap.
   */
  datatype Query = Query(name: string, dirs: seq<string>, threshold: int, maxAttempts: int, waitAfter: nat)

  /** The wait between two missed attempts (1 s). */
  const InterAttemptWait: nat := 1000

  /** What `find_and_tap` searches: the primary directory only, at 0.8. */
  function PrimaryQuery(cfg: Config, name: string, maxAttempts: int, waitAfter: nat): Query
  {
    Query(name, [cfg.templatePath], DefaultThreshold, maxAttempts, waitAfter)
  }

  /** What `find_and_tap_multi` searches: the primary directory and then the extra ones. */
  function MultiQuery(cfg: Config, name: string, maxAttempts: int, waitAfter: nat,
                      extra: Option<seq<string>>, threshold: int): Query
  {
    Query(name, SearchRoots(cfg.templatePath, extra), threshold, maxAttempts, waitAfter)
  }

  function Search(env: Oracles, q: Query, frame: nat): Option<Point>
  {
    SearchDirs(env.look, frame, q.dirs, q.name, q.threshold)
  }

  /** Attempt on `frame` captured, and the template was found. */
  predicate Hit(env: Oracles, q: Query, frame: nat)
  {
    env.captureOk(frame) && Search(env, q, frame).Some?
  }

  /** Attempt on `frame` captured, and the template was not found. */
  predicate Missed(env: Oracles, q: Query, frame: nat)
  {
    env.captureOk(frame) && Search(env, q, frame).None?
  }

  /** Attempts left when attempt number `k` (from 0) is next. */
  function Budget(maxAttempts: int, k: nat): nat
  {
    if k < maxAttempts then maxAttempts - k else 0
  }

  /** The retry loop from attempt `k` on, attempt `k` using frame number `frame`. */
  function RetryRun(env: Oracles, q: Query, frame: nat, k: nat): Run
    decreases Budget(q.maxAttempts, k)
  {
    if k >= q.maxAttempts then Run(Failure, [], 0)
    else if !env.captureOk(frame) then Run(Fault, [], 1)
    else
      match Search(env, q, frame)
      case Some(p) =>
        Run(Success, [Capture(frame), Tap(p)] + (if q.waitAfter > 0 then [Sleep(q.waitAfter)] else []) + [Remove(frame)], 1)
      case None =>
        var rest := RetryRun(env, q, frame + 1, k + 1);
        Run(rest.outcome,
            [Capture(frame)] + (if k < q.maxAttempts - 1 then [Sleep(InterAttemptWait)] else []) + [Remove(frame)] + rest.events,
            rest.frames + 1)
  }

  /** `find_and_tap(name, max_attempts, wait_after)` started at frame `start`. */
  function FindAndTapRun(env: Oracles, cfg: Config, name: string, maxAttempts: int, waitAfter: nat, start: nat): Run
  {
    RetryRun(env, PrimaryQuery(cfg, name, maxAttempts, waitAfter), start, 0)
  }

  /** `find_and_tap_multi(name, max_attempts, wait_after, extra_dirs, threshold)` started at frame `start`. */
  function FindAndTapMultiRun(env: Oracles, cfg: Config, name: string, maxAttempts: int, waitAfter: nat,
                              extra: Option<seq<string>>, threshold: int, start: nat): Run
  {
    RetryRun(env, MultiQuery(cfg, name, maxAttempts, waitAfter, extra, threshold), start, 0)
  }

  /**
   * The attempts of a retry: never more than the budget; every attempt but
   * the last one missed; the last one matched (success), raised (fault),
   * or was the final attempt and missed (failure).
   */
  lemma {:induction false} RetryAttempts(env: Oracles, q: Query, frame: nat, k: nat)
    ensures var r := RetryRun(env, q, frame, k);
      && r.frames <= Budget(q.maxAttempts, k)
      && (forall f :: frame <= f < frame + r.frames - 1 ==> Missed(env, q, f))
      && (r.outcome == Success ==> r.frames >= 1 && Hit(env, q, frame + r.frames - 1))
      && (r.outcome == Fault ==> r.frames >= 1 && !env.captureOk(frame + r.frames - 1))
      && (r.outcome == Failure ==>
            r.frames == Budget(q.maxAttempts, k) && (r.frames >= 1 ==> Missed(env, q, frame + r.frames - 1)))
    decreases Budget(q.maxAttempts, k)
  {
    if k < q.maxAttempts && env.captureOk(frame) && Search(env, q, frame).None? {
      RetryAttempts(env, q, frame + 1, k + 1);
      var rest := RetryRun(env, q, frame + 1, k + 1);
      assert Missed(env, q, frame);
    }
  }

  /** A hit within the budget, after nothing but misses, makes the retry succeed. */
  lemma {:induction false} HitWithinBudget(env: Oracles, q: Query, frame: nat, k: nat, j: nat)
    requires frame <= j < frame + Budget(q.maxAttempts, k) && Hit(env, q, j)
    requires forall f :: frame <= f < j ==> Missed(env, q, f)
    ensures RetryRun(env, q, frame, k).outcome == Success
    decreases j - frame
  {
    if j > frame {
      assert Missed(env, q, frame);
      HitWithinBudget(env, q, frame + 1, k + 1, j);
    }
  }

  /** `find_and_tap` reports success exactly when some attempt matched before any capture raised. */
  lemma RetrySucceedsIff(env: Oracles, q: Query, frame: nat)
    ensures RetryRun(env, q, frame, 0).outcome == Success <==>
            exists j :: frame <= j < frame + Budget(q.maxAttempts, 0) && Hit(env, q, j) &&
                        forall f :: frame <= f < j ==> Missed(env, q, f)
  {
    var r := RetryRun(env, q, frame, 0);
    if r.outcome == Success {
      RetryAttempts(env, q, frame, 0);
      var last := frame + r.frames - 1;
      assert Hit(env, q, last) && forall f :: frame <= f < last ==> Missed(env, q, f);
    }
    if exists j :: frame <= j < frame + Budget(q.maxAttempts, 0) && Hit(env, q, j) &&
                   forall f :: frame <= f < j ==> Missed(env, q, f) {
      var j :| frame <= j < frame + Budget(q.maxAttempts, 0) && Hit(env, q, j) &&
               forall f :: frame <= f < j ==> Missed(env, q, f);
      HitWithinBudget(env, q, frame, 0, j);
    }
  }

  lemma MissCounts(frame: nat, pause: seq<Event>, rest: seq<Event>)
    requires pause == [] || pause == [Sleep(InterAttemptWait)]
    ensures var evs := [Capture(frame)] + pause + [Remove(frame)] + rest;
      && Shots(evs) == 1 + Shots(rest)
      && Taps(evs) == Taps(rest)
      && Sleeps(evs) == (if pause == [] then [] else [InterAttemptWait]) + Sleeps(rest)
  {
    var lead := [Capture(frame)] + pause;
    CountsAppend(lead + [Remove(frame)], rest);
    CountsAppend(lead, [Remove(frame)]);
    CountsAppend([Capture(frame)], pause);
    CountsOne(Capture(frame));
    CountsOne(Remove(frame));
    if pause == [] {
      assert Shots(pause) == 0 && Taps(pause) == [] && Sleeps(pause) == [];
    } else {
      CountsOne(Sleep(InterAttemptWait));
    }
  }

  lemma HitCounts(frame: nat, p: Point, pause: seq<Event>, waitAfter: nat)
    requires pause == if waitAfter > 0 then [Sleep(waitAfter)] else []
    ensures var evs := [Capture(frame), Tap(p)] + pause + [Remove(frame)];
      && Shots(evs) == 1
      && Taps(evs) == [p]
      && Sleeps(evs) == (if waitAfter > 0 then [waitAfter] else [])
  {
    assert [Capture(frame), Tap(p)] == [Capture(frame)] + [Tap(p)];
    CountsAppend([Capture(frame), Tap(p)] + pause, [Remove(frame)]);
    CountsAppend([Capture(frame), Tap(p)], pause);
    CountsAppend([Capture(frame)], [Tap(p)]);
    CountsOne(Capture(frame));
    CountsOne(Tap(p));
    CountsOne(Remove(frame));
    CountsOne(Sleep(waitAfter));
  }

  /** On success the retry taps once, at the match of its last attempt; otherwise it never taps. */
  lemma {:induction false} RetryTaps(env: Oracles, q: Query, frame: nat, k: nat)
    ensures var r := RetryRun(env, q, frame, k);
      && (r.outcome == Success ==>
            r.frames >= 1 && Search(env, q, frame + r.frames - 1).Some? &&
            Taps(r.events) == [Search(env, q, frame + r.frames - 1).value])
      && (r.outcome != Success ==> Taps(r.events) == [])
    decreases Budget(q.maxAttempts, k)
  {
    var r := RetryRun(env, q, frame, k);
    if k < q.maxAttempts && env.captureOk(frame) {
      match Search(env, q, frame)
      case Some(p) =>
        HitCounts(frame, p, if q.waitAfter > 0 then [Sleep(q.waitAfter)] else [], q.waitAfter);
      case None =>
        RetryTaps(env, q, frame + 1, k + 1);
        RetryAttempts(env, q, frame + 1, k + 1);
        var rest := RetryRun(env, q, frame + 1, k + 1);
        MissCounts(frame, if k < q.maxAttempts - 1 then [Sleep(InterAttemptWait)] else [], rest.events);
        assert frame + r.frames - 1 == (frame + 1) + rest.frames - 1;
    }
  }

  /** Every attempt that captured took exactly one screenshot: at most `max_attempts` in all. */
  lemma {:induction false} RetryShots(env: Oracles, q: Query, frame: nat, k: nat)
    ensures var r := RetryRun(env, q, frame, k);
      && Shots(r.events) == (if r.outcome == Fault then r.frames - 1 else r.frames)
      && Shots(r.events) <= Budget(q.maxAttempts, k)
    decreases Budget(q.maxAttempts, k)
  {
    var r := RetryRun(env, q, frame, k);
    RetryAttempts(env, q, frame, k);
    if k < q.maxAttempts && env.captureOk(frame) {
      match Search(env, q, frame)
      case Some(p) =>
        HitCounts(frame, p, if q.waitAfter > 0 then [Sleep(q.waitAfter)] else [], q.waitAfter);
      case None =>
        RetryShots(env, q, frame + 1, k + 1);
        var rest := RetryRun(env, q, frame + 1, k + 1);
        MissCounts(frame, if k < q.maxAttempts - 1 then [Sleep(InterAttemptWait)] else [], rest.events);
    }
  }

  /**
   * The waits a retry run `r` shows: one second after every miss except a
   * miss on the final attempt, and `waitAfter` after a match only when it
   * is positive.  So `n` failed attempts wait `n - 1` times.
   */
  ghost predicate PausesOfRetry(r: Run, waitAfter: nat)
  {
    && (r.outcome == Failure ==>
          Sleeps(r.events) == Repeat(InterAttemptWait, if r.frames == 0 then 0 else r.frames - 1))
    && (r.outcome == Fault ==> r.frames >= 1 && Sleeps(r.events) == Repeat(InterAttemptWait, r.frames - 1))
    && (r.outcome == Success ==>
          && r.frames >= 1
          && Sleeps(r.events) == Repeat(InterAttemptWait, r.frames - 1) + (if waitAfter > 0 then [waitAfter] else []))
  }

  lemma {:induction false} RetrySleeps(env: Oracles, q: Query, frame: nat, k: nat)
    ensures PausesOfRetry(RetryRun(env, q, frame, k), q.waitAfter)
    decreases Budget(q.maxAttempts, k)
  {
    if k < q.maxAttempts && env.captureOk(frame) {
      match Search(env, q, frame)
      case Some(p) =>
        HitCounts(frame, p, if q.waitAfter > 0 then [Sleep(q.waitAfter)] else [], q.waitAfter);
      case None =>
        RetrySleeps(env, q, frame + 1, k + 1);
        var rest := RetryRun(env, q, frame + 1, k + 1);
        var pause := if k < q.maxAttempts - 1 then [Sleep(InterAttemptWait)] else [];
        assert k < q.maxAttempts - 1 ==> rest.frames >= 1;
        MissCounts(frame, pause, rest.events);
        MissPauses(frame, pause, rest, q.waitAfter);
    }
  }

  /** A miss in front of a retry run keeps `PausesOfRetry`, waiting once more unless it was the last attempt. */
  lemma MissPauses(frame: nat, pause: seq<Event>, rest: Run, waitAfter: nat)
    requires pause == [] || pause == [Sleep(InterAttemptWait)]
    requires pause == [] ==> rest == Run(Failure, [], 0)
    requires pause != [] ==> rest.frames >= 1
    requires PausesOfRetry(rest, waitAfter)
    requires Sleeps([Capture(frame)] + pause + [Remove(frame)] + rest.events)
             == (if pause == [] then [] else [InterAttemptWait]) + Sleeps(rest.events)
    ensures PausesOfRetry(Run(rest.outcome, [Capture(frame)] + pause + [Remove(frame)] + rest.events, rest.frames + 1), waitAfter)
  {
    if pause != [] {
      assert Repeat(InterAttemptWait, rest.frames) == [InterAttemptWait] + Repeat(InterAttemptWait, rest.frames - 1);
    } else {
      assert Sleeps([]) == [];
    }
  }

  /**
   * One attempt of the retry, attempt number `k`, on the next frame: it
   * ends the call (a match or a raising capture) or it missed, and the
   * retry goes on with attempt `k + 1` on the following frame.  The frame
   * it captures is removed before it returns.
   */
  method Attempt(a: Automation, q: Query, k: nat) returns (done: Option<Outcome>)
    requires a.Valid() && k < q.maxAttempts
    modifies a
    ensures a.Valid() && a.live == old(a.live)
    ensures a.nextFrame == old(a.nextFrame) + 1
    ensures var here := RetryRun(a.env, q, old(a.nextFrame), k);
      var rest := RetryRun(a.env, q, a.nextFrame, k + 1);
      && (done.Some? ==> done.value == here.outcome && a.events == old(a.events) + here.events && here.frames == 1)
      && (done.None? ==>
            && a.events + rest.events == old(a.events) + here.events
            && here.outcome == rest.outcome && here.frames == rest.frames + 1)
  {
    var shot := a.TakeScreenshot();
    if shot.None? {
      return Some(Fault);
    }
    var frame := shot.value;
    var coords := SearchDirs(a.env.look, frame, q.dirs, q.name, q.threshold);
    if coords.Some? {
      a.TapCoordinate(coords.value);
      if q.waitAfter > 0 {
        a.Wait(q.waitAfter);
      }
      a.RemoveScreenshot(frame);
      return Some(Success);
    }
    if k < q.maxAttempts - 1 {
      a.Wait(InterAttemptWait);
    }
    a.RemoveScreenshot(frame);
    done := None;
  }

  /**
   * The retry primitive.  Every frame it captures is removed before the
   * attempt ends, so the set of screenshot files is unchanged.
   */
  method LocateAndTap(a: Automation, q: Query) returns (r: Outcome)
    requires a.Valid()
    modifies a
    ensures a.Valid()
    ensures var run := RetryRun(a.env, q, old(a.nextFrame), 0);
      && r == run.outcome
      && a.events == old(a.events) + run.events
      && a.nextFrame == old(a.nextFrame) + run.frames
    ensures a.live == old(a.live)
  {
    ghost var start := a.nextFrame;
    ghost var run := RetryRun(a.env, q, start, 0);
    var attempt: nat := 0;
    while attempt < q.maxAttempts
      invariant a.Valid() && a.live == old(a.live)
      invariant a.nextFrame == start + attempt
      invariant var rest := RetryRun(a.env, q, a.nextFrame, attempt);
        && a.events + rest.events == old(a.events) + run.events
        && rest.outcome == run.outcome
        && attempt + rest.frames == run.frames
      decreases q.maxAttempts - attempt
    {
      var done := Attempt(a, q, attempt);
      if done.Some? {
        return done.value;
      }
      attempt := attempt + 1;
    }
    r := Failure;
  }

  /** `find_and_tap` */
  method FindAndTap(a: Automation, name: string, maxAttempts: int, waitAfter: nat) returns (r: Outcome)
    requires a.Valid()
    modifies a
    ensures a.Valid()
    ensures var run := FindAndTapRun(a.env, a.cfg, name, maxAttempts, waitAfter, old(a.nextFrame));
      && r == run.outcome
      && a.events == old(a.events) + run.events
      && a.nextFrame == old(a.nextFrame) + run.frames
    ensures a.live == old(a.live)
  {
    r := LocateAndTap(a, PrimaryQuery(a.cfg, name, maxAttempts, waitAfter));
  }

  /** `find_and_tap_multi` */
  method FindAndTapMulti(a: Automation, name: string, maxAttempts: int, waitAfter: nat,
                         extra: Option<seq<string>>, threshold: int) returns (r: Outcome)
    requires a.Valid()
    modifies a
    ensures a.Valid()
    ensures var run := FindAndTapMultiRun(a.env, a.cfg, name, maxAttempts, waitAfter, extra, threshold, old(a.nextFrame));
      && r == run.outcome
      && a.events == old(a.events) + run.events
      && a.nextFrame == old(a.nextFrame) + run.frames
    ensures a.live == old(a.live)
  {
    r := LocateAndTap(a, MultiQuery(a.cfg, name, maxAttempts, waitAfter, extra, threshold));
  }
}
