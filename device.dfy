/**
 * The I/O boundary of the automation: the debug-bridge device and the
 * screenshot directory.  What the device shows is decided by oracles; what
 * the automation does to the device is recorded as a log of events, and
 * the screenshot files currently on disk are the set `live`.
 */
module Device {
  import opened Wrappers
  import opened Vision

  /** One observable effect on the device or on the screenshot directory. */
  datatype Event =
    | Capture(frame: nat)   // a screenshot file is written
    | Tap(at: Point)        // a tap is sent to the device
    | Sleep(ms: nat)        // the control thread blocks
    | Remove(frame: nat)    // a screenshot file is deleted

  /**
   * What the screen shows.  Frames are numbered by capture attempt;
   * `captureOk(f)` says whether attempt `f` produced a file or raised.
   */
  datatype Oracles = Oracles(look: Matcher, captureOk: nat -> bool, useScan: nat -> UseScan)

  /**
   * The settings the loop reads from the configuration file.  Waits are in
   * milliseconds.
   */
  datatype Config = Config(
    templatePath: string,
    nextAttempts: int,
    nextWait: nat,
    careerWait: nat,
    startCareerWait: nat,
    skipWait: nat,
    confirmWait: nat,
    loopWait: nat,
    tapAfterSkip: Point,
    manualChoose: bool,
    rarity: Option<string>,
    speciality: Option<string>)

  /** The automation object with the world it drives. */
  class Automation {
    const env: Oracles
    const cfg: Config
    var events: seq<Event>
    var live: set<nat>
    var nextFrame: nat

    /** Screenshot files on disk all come from earlier capture attempts. */
    ghost predicate Valid()
      reads this
    {
      forall f :: f in live ==> f < nextFrame
    }

    constructor (env: Oracles, cfg: Config)
      ensures Valid()
      ensures this.env == env && this.cfg == cfg
      ensures events == [] && live == {} && nextFrame == 0
    {
      this.env := env;
      this.cfg := cfg;
      events := [];
      live := {};
      nextFrame := 0;
    }

    /** `take_screenshot`: write a fresh frame file, or raise (none is written then). */
    method TakeScreenshot() returns (f: Option<nat>)
      requires Valid()
      modifies this
      ensures Valid()
      ensures nextFrame == old(nextFrame) + 1
      ensures f == if env.captureOk(old(nextFrame)) then Some(old(nextFrame)) else None
      ensures f.Some? ==> f.value !in old(live)
      ensures events == old(events) + if f.Some? then [Capture(f.value)] else []
      ensures live == old(live) + if f.Some? then {f.value} else {}
    {
      if env.captureOk(nextFrame) {
        f := Some(nextFrame);
        events := events + [Capture(nextFrame)];
        live := live + {nextFrame};
      } else {
        f := None;
      }
      nextFrame := nextFrame + 1;
    }

    /** `tap_coordinate` */
    method TapCoordinate(p: Point)
      modifies this`events
      ensures events == old(events) + [Tap(p)]
    {
      events := events + [Tap(p)];
    }

    /** `wait` and `time.sleep` */
    method Wait(ms: nat)
      modifies this`events
      ensures events == old(events) + [Sleep(ms)]
    {
      events := events + [Sleep(ms)];
    }

    /** The `finally` clean-up: delete a screenshot file. */
    method RemoveScreenshot(f: nat)
      requires Valid()
      modifies this`events, this`live
      ensures Valid()
      ensures events == old(events) + [Remove(f)]
      ensures live == old(live) - {f}
    {
      events := events + [Remove(f)];
      live := live - {f};
    }
  }

  /** How many screenshots a log takes. */
  function Shots(evs: seq<Event>): nat
  {
    if evs == [] then 0 else (if evs[0].Capture? then 1 else 0) + Shots(evs[1..])
  }

  /** The taps of a log, in order. */
  function Taps(evs: seq<Event>): seq<Point>
  {
    if evs == [] then [] else (if evs[0].Tap? then [evs[0].at] else []) + Taps(evs[1..])
  }

  /** The waits of a log, in order. */
  function Sleeps(evs: seq<Event>): seq<nat>
  {
    if evs == [] then [] else (if evs[0].Sleep? then [evs[0].ms] else []) + Sleeps(evs[1..])
  }

  /** `n` copies of `x`. */
  function Repeat<T>(x: T, n: nat): (r: seq<T>)
    ensures |r| == n && forall i :: 0 <= i < n ==> r[i] == x
  {
    if n == 0 then [] else [x] + Repeat(x, n - 1)
  }

  lemma {:induction false} CountsAppend(a: seq<Event>, b: seq<Event>)
    ensures Shots(a + b) == Shots(a) + Shots(b)
    ensures Taps(a + b) == Taps(a) + Taps(b)
    ensures Sleeps(a + b) == Sleeps(a) + Sleeps(b)
    decreases |a|
  {
    if a != [] {
      assert (a + b)[1..] == a[1..] + b;
      CountsAppend(a[1..], b);
    } else {
      assert a + b == b;
    }
  }

  /** Regrouping a log; stated once so that callers need not re-derive it element by element. */
  lemma AppendAssoc(a: seq<Event>, b: seq<Event>, c: seq<Event>)
    ensures (a + b) + c == a + (b + c)
  {
  }

  /** A prefix stays a prefix behind a common head. */
  lemma PrefixExtend(a: seq<Event>, b: seq<Event>, c: seq<Event>)
    requires b <= c
    ensures a + b <= a + c
  {
    assert (a + c)[..|a + b|] == a + b;
  }

  lemma CountsOne(e: Event)
    ensures Shots([e]) == if e.Capture? then 1 else 0
    ensures Taps([e]) == if e.Tap? then [e.at] else []
    ensures Sleeps([e]) == if e.Sleep? then [e.ms] else []
  {
    assert [e][1..] == [];
  }
}
