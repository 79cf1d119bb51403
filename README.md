# Uma automation: Locate-And-Act engine and step sequencer

This project models the core of `uma_automation.py`, a bot that drives a
phone game over the Android debug bridge. The bot finds on-screen buttons
by template matching and taps them. It runs the game's "career" loop step
by step (Career, Next, auto-select, the optional manual friend choice,
Start Career with the TP-charge sub-loop, the skip dance, Confirm, Menu,
the give-up recovery loop, Give Up). Most steps are guarded by a bounded
retry that captures a fresh screenshot, asks the matcher, taps the hit and
deletes the screenshot. The exceptions are step 11 (lines 536-540), a wait
and a tap at a configured coordinate with no search, and the checks without
retry: steps 6.5 and 14.5 (lines 487-506, 598-612) capture one frame and
check it once, and step 12 (lines 542-585) does the same, then after its
double tap captures and checks a second frame.

What the screen shows and whether a capture works are oracles
(`Device.Oracles`). There is no clock: the only use the source makes of
`time.time()` is to name screenshot files, and that is covered under
"## Left out".

- `look(frame, dir, template)` gives what matching one template file
  against one frame yields: the file is missing, an image could not be
  read, or the best score with its location and the template size.
- `captureOk(frame)` says whether capture attempt `frame` produced a file
  or raised.
- `useScan(frame)` gives the ordered list of "use" matches and the
  grey-scale frame.

What the bot does is recorded in `Automation.events`, a log of captures,
taps, waits and deletions. The screenshot files on disk are the set
`Automation.live`. Only the four primitives (capture, tap, wait, delete)
are methods of the class `Device.Automation`. Each procedure is a
module-level method that takes the automation object `a: Automation` and
is proved against a function giving the procedure's `Run`: its outcome
(`Success` for `True`, `Failure` for `False`, `Fault` for an exception that
escapes), its events, and the capture attempts it uses. The properties are
lemmas about those functions.

Other modelling choices:

- Scores and thresholds are scaled by 1000 (0.8 becomes 800).
- Waits are in milliseconds.
- The main loop and its two inner `while True` loops need not terminate, so
  a cycle runs at most `fuel` steps and the main loop at most `cycles`
  cycles.

Modules and files:

- `Vision` (`vision.dfy`): the acceptance rule and centre of
  `find_template`, and the ordered directory search of
  `find_template_multi`.
- `LocateAndAct` (`locate.dfy`): the bounded retry of `find_and_tap` and
  `find_and_tap_multi`.
- `UseButtonFilter` (`use_buttons.dfy`): the brightness filter and
  proximity de-duplication of `find_use_buttons_with_brightness_filter`.
- `FilterChoice` (`filter_choice.dfy`): the rarity and speciality lookup of
  `run_filter_sequence`.
- `Procedures` (`procedures.dfy`): `run_filter_sequence`,
  `manual_choose_friend`, `tp_charge`, and the checks without retry of the
  main loop.
- `Sequencer` (`sequencer.dfy`): the phases of a cycle, the transition
  table, one cycle, and the main loop.
- `Device` (`device.dfy`): the automation object and its event log.
- `Wrappers` (`wrappers.dfy`): `Option`.

Two points about the code that the model keeps:

- `take_screenshot` raises (lines 84-89) outside the `try` of `find_and_tap`
  (line 156). A failed capture therefore leaves `find_and_tap` and reaches
  the main loop's handler (lines 675-678), or the `except` of `tp_charge`,
  which returns False. The model's `Fault` outcome does the same, and
  `Procedures.Absorb` turns it into `Failure` for `tp_charge`.
- The quick check `find_and_tap("start_career_1.png", 1)` (line 509) runs on
  every path out of the Start-Career loop, including the ones where no TP
  charge happened. A miss there restarts the cycle.

## Model

| member | source | states |
|---|---|---|
| Vision.Centre | uma_automation.py:118-120 | the tap point lies inside the template's box and is its middle, rounded down (left + width div 2, top + height div 2) |
| Vision.FindTemplate | uma_automation.py:91-129 | a point is returned exactly when the file exists, the images could be read, and the best score reaches the threshold; the point is the centre of the best match |
| Vision.ThresholdMonotone | uma_automation.py:116 | raising the threshold never creates a match and never moves one |
| Vision.SearchRoots | uma_automation.py:180-183 | the primary directory is searched first, then the given extra directories in order, or `assets/image` when none are given |
| Vision.FirstHitWins | uma_automation.py:183-208 | the ordered search finds a point exactly when some directory matches, and returns the point of the first matching directory |
| Vision.SearchDirs | uma_automation.py:183-208 | the directories are tried in order; a directory whose file is missing or unreadable, or whose score is below the threshold, passes to the next; the first match decides |
| Vision.LaterDirsUnconsulted | uma_automation.py:184-205 | directories after the first match are not consulted: matchers that agree up to it give the same result |
| Vision.MissingFileSkipped | uma_automation.py:189-190 | a directory without the template file is skipped |
| Vision.SearchThresholdMonotone | uma_automation.py:200 | lowering the threshold never loses a hit of the ordered search |
| Device.Automation.TakeScreenshot | uma_automation.py:66-89 | a fresh frame file is written and logged, or the capture raises and nothing is written; the attempt counter always advances |
| Device.Automation.TapCoordinate | uma_automation.py:131-146 | one tap at the point is logged |
| Device.Automation.Wait | uma_automation.py:148-151 | one wait of the given length is logged |
| Device.Automation.RemoveScreenshot | uma_automation.py:170-173 | the frame file is deleted and the deletion logged |
| LocateAndAct.RetryAttempts | uma_automation.py:153-176 | at most `max_attempts` attempts; every attempt but the last missed; the last one hit (True), raised, or was the final attempt and missed (False) |
| LocateAndAct.RetryRun | uma_automation.py:153-176 | attempt k of `max_attempts`: a capture that raises ends the call; a match taps the centre, waits `wait_after` when positive and deletes the frame; a miss deletes the frame after a one-second wait unless it was the last attempt, and the next attempt uses the next frame |
| LocateAndAct.RetrySucceedsIff | uma_automation.py:155-176 | `find_and_tap` returns True exactly when some attempt within the budget matched and every earlier attempt captured and missed |
| LocateAndAct.HitWithinBudget | uma_automation.py:155-164 | a match on an attempt within the budget, after only captured misses, makes `find_and_tap` succeed |
| LocateAndAct.RetryTaps | uma_automation.py:159-164 | on success exactly one tap, at the centre found by the last attempt; on failure or fault no tap |
| LocateAndAct.RetryShots | uma_automation.py:155-156 | one screenshot per attempt that captured, never more than `max_attempts` |
| LocateAndAct.RetrySleeps | uma_automation.py:162-168 | n missed attempts give n-1 one-second waits and none after the last; a success adds the `wait_after` wait only when it is positive |
| LocateAndAct.MissPauses | uma_automation.py:162-168 | a missed attempt in front of the rest of a retry adds one one-second wait, or none when it was the last attempt, and keeps the waiting pattern of the whole retry |
| LocateAndAct.Attempt | uma_automation.py:156-173 | one attempt either ends the call with the retry's outcome and events or leaves the rest of the retry from the next attempt; its frame is deleted in every case |
| LocateAndAct.LocateAndTap | uma_automation.py:153-176 | the loop's outcome, events and attempts are those of the retry function; no screenshot file outlives the call |
| LocateAndAct.FindAndTap | uma_automation.py:153-176 | `find_and_tap` searches the primary directory at 0.8 with the retry above; no screenshot file outlives the call |
| LocateAndAct.FindAndTapMulti | uma_automation.py:210-229 | `find_and_tap_multi` runs the same retry over the ordered directory search at its threshold; no screenshot file outlives the call |
| UseButtonFilter.KeptAreBright | uma_automation.py:338-341 | every returned point is inside the frame and strictly brighter than the threshold |
| UseButtonFilter.KeptAreSeparated | uma_automation.py:343-351 | any two returned points are at least 50 pixels apart |
| UseButtonFilter.KeptInMatchOrder | uma_automation.py:332-351 | the returned points are the centres of matches, in increasing match order |
| UseButtonFilter.KeptGrows | uma_automation.py:332-351 | the points kept after a prefix of the matches are a prefix of the final list (append only) |
| UseButtonFilter.DroppedOnlyIfNear | uma_automation.py:341-351 | a bright, in-frame candidate is dropped only when a point kept before it lies closer than 50 pixels, and some returned point is near it |
| UseButtonFilter.IsUnique | uma_automation.py:343-348 | the inner loop's flag is true exactly when the candidate is at least 50 pixels from every kept point |
| UseButtonFilter.FindUseButtons | uma_automation.py:299-358 | the nested loop returns exactly the filtered list; a missing or unreadable template gives the empty list |
| UseButtonFilter.Kept | uma_automation.py:332-351 | the matches are taken in order; a centre is appended when it lies in the frame, is brighter than the threshold and is 50 pixels or more from every centre already kept |
| UseButtonFilter.UseButtons | uma_automation.py:299-358 | a missing or unreadable template, or an unreadable frame, gives the empty list; otherwise the filtered centres of the scan |
| FilterChoice.Upper | uma_automation.py:242-243 | upper-casing keeps the length and maps each letter on its own |
| FilterChoice.UpperIdempotent | uma_automation.py:242-243 | upper-casing twice changes nothing more |
| FilterChoice.Normalise | uma_automation.py:242-243 | the setting in effect is the configured value or the default, each character upper-cased in place, so no lower-case letter is left |
| FilterChoice.Choose | uma_automation.py:244-263 | a pair of coordinates exactly when both normalised settings are keys of their tables, and then exactly the rarity table's entry for the normalised rarity and the speciality table's entry for the normalised speciality |
| FilterChoice.DefaultsAreSsrPower | uma_automation.py:242-263 | without settings the filter taps the SSR and POWER coordinates |
| FilterChoice.ChoiceIgnoresCase | uma_automation.py:242-243 | a setting and its upper-cased form choose alike |
| FilterChoice.LowerCaseAccepted | uma_automation.py:242-263 | "sr" and "wit" choose the SR and WIT coordinates |
| Procedures.FilterSequenceTaps | uma_automation.py:233-273 | filter and sort are tapped first; an unknown setting fails with no further tap; otherwise the rarity and then the speciality coordinate are tapped, and the result is that of finding OK |
| Procedures.RunFilterSequence | uma_automation.py:231-273 | the method's outcome, events and attempts are those of the filter function |
| Procedures.FilterSequenceRun | uma_automation.py:231-273 | Filter and Sort are tapped with half-second waits; an unknown setting fails there; otherwise rarity and speciality are tapped with 0.2 s waits, ok.png is searched with 10 attempts, and a success waits half a second |
| Procedures.TapTwice | uma_automation.py:235-238 | two taps, each followed by the same wait, are logged in order |
| Procedures.FollowOrFilterOutcome | uma_automation.py:282-297 | after plus.png, success exactly when following.png is tapped on the first search or after a successful filter; the filter runs only after the first search returns False |
| Procedures.ManualChooseOutcome | uma_automation.py:275-297 | manual choice succeeds exactly when plus.png and then following.png are tapped, on the first search or after a successful filter; a miss of plus.png ends it at once |
| Procedures.ManualChooseFriend | uma_automation.py:275-297 | the method's outcome, events and attempts are those of the manual-choice function |
| Procedures.FollowOrFilter | uma_automation.py:282-297 | steps 2 to 4 of manual choice run as their function says |
| Procedures.FilterThenFollow | uma_automation.py:286-297 | step 4 of manual choice runs as its function says |
| Procedures.ManualChooseRun | uma_automation.py:275-297 | plus.png with 10 attempts and a one-second wait gates the rest; a miss or a crash there ends the call |
| Procedures.FollowOrFilterRun | uma_automation.py:282-297 | following.png with 5 attempts at threshold 0.7 decides when it is found or raises; only a plain miss runs the filter and the second search |
| Procedures.FilterThenFollowRun | uma_automation.py:286-297 | the filter sequence, and only after its success the second following.png search, from the frame after the filter |
| Procedures.UseStepTapsFirst | uma_automation.py:372-385 | the use step fails exactly when no button survives the filter (or the capture raises), and otherwise taps only the first one |
| Procedures.TpChargeNeedsUseButton | uma_automation.py:360-416 | `tp_charge` never raises; it fails when restore.png was tapped but no use button survives; it succeeds only after the first use button was tapped |
| Procedures.TapFirstUseButton | uma_automation.py:372-385 | steps 2 and 3 of `tp_charge` run as their function says, the frame deleted in every case |
| Procedures.UseStepRun | uma_automation.py:372-385 | one capture; no surviving "use" button fails, otherwise only the first is tapped; the frame is deleted on both paths and a raising capture is a crash |
| Procedures.OpenAndUse | uma_automation.py:365-386 | steps 1 to 3 of `tp_charge` run as their function says |
| Procedures.ChargeOpenRun | uma_automation.py:365-386 | restore.png with 10 attempts and then the use step, each followed on success by half a second |
| Procedures.ConfirmCharge | uma_automation.py:388-409 | steps 4 to 6 of `tp_charge` run as their function says |
| Procedures.ChargeConfirmRun | uma_automation.py:388-409 | max.png, then ok.png with a 1.5 s wait, then close.png with 20 attempts and half a second; the first that fails ends the charge |
| Procedures.TpCharge | uma_automation.py:360-416 | the method's outcome, events and attempts are those of the charge function, with every exception turned into False |
| Procedures.TpChargeRun | uma_automation.py:360-416 | the open and confirm parts in sequence, with any crash reported as False |
| Procedures.RestorePeekOutcome | uma_automation.py:489-503 | the restore check retries step 6 exactly when restore.png shows and the charge succeeds; it raises exactly when its capture does |
| Procedures.ChargeKeepingFrame | uma_automation.py:494-506 | the charge runs while the frame showing restore.png is kept, and that frame is deleted afterwards |
| Procedures.PeekRestoreWith | uma_automation.py:489-506 | step 6.5 runs as its function says, for any description of the charge that agrees with `tp_charge` |
| Procedures.PeekRestore | uma_automation.py:489-506 | step 6.5's outcome, events and attempts are those of the restore-check function |
| Procedures.RestorePeekWith | uma_automation.py:489-506 | one capture; restore.png there starts the charge on the next frame while the peek frame is kept, and the peek frame is deleted afterwards; no match deletes it and fails |
| Procedures.SkipToggleTaps | uma_automation.py:544-584 | nothing is tapped unless skip_off.png shows on the first frame, which is then tapped twice; on the re-check exactly one branch runs: two more taps at skip_off.png's point on the second frame, one tap at skip_on_1.png's point, or none |
| Procedures.ReactToSkipCheck | uma_automation.py:559-577 | the re-check taps as the reaction function says |
| Procedures.CheckSkipToggle | uma_automation.py:544-584 | step 12 runs as its function says; both frames are deleted |
| Procedures.SkipToggleRun | uma_automation.py:544-584 | skip_off.png on the first frame is tapped twice with 0.2 s waits and a second frame is checked; every captured frame is deleted, the second one first; a raising capture is a crash |
| Procedures.SkipReaction | uma_automation.py:559-577 | on the second frame: skip_off.png again gives another double tap, else skip_on_1.png one tap, else nothing |
| Procedures.BurstTaps | uma_automation.py:605-607 | n rounds tap n times at the same point and take no screenshot |
| Procedures.NextPeekTaps | uma_automation.py:600-612 | the extra Next check taps five times at the button when it shows and never otherwise |
| Procedures.PeekNextButton | uma_automation.py:600-612 | step 14.5 runs as its function says |
| Procedures.NextPeekRun | uma_automation.py:600-612 | one capture; next.png there is tapped five times with half-second waits; the frame is deleted on both paths |
| Sequencer.StartCareerReentry | uma_automation.py:466-504 | start_career_1 is entered only after the manual-choice step succeeds or after a successful TP charge |
| Sequencer.StopOnlyAtManualChoice | uma_automation.py:470-472 | the cycle loop is left (`break`) exactly when manual choice fails |
| Sequencer.RestartOnlyOnGuardFailure | uma_automation.py:428-664 | a fresh cycle (`continue`) follows exactly the False of a guarded step |
| Sequencer.StepKeepsMandatory | uma_automation.py:422-668 | a jump forward passes a mandatory step only from that step and only on success |
| Sequencer.Step | uma_automation.py:422-668 | the control flow of the loop body: which step follows each outcome, where `continue` restarts, where `break` stops, the two inner loops, and that an exception crashes the cycle |
| Sequencer.TableKeepsMandatory | uma_automation.py:422-668 | the transition table never finishes a cycle or jumps past a mandatory step that was not just passed |
| Sequencer.CycleTrail | uma_automation.py:424-668 | a cycle's trail starts at its first step, records each step's outcome, follows the table, and its last transition is how the cycle ended |
| Sequencer.CompletedFrom | uma_automation.py:424-668 | for a table that keeps mandatory steps, a completed cycle succeeded at every mandatory step from its start on |
| Sequencer.CycleLastEvent | uma_automation.py:662-668 | a cycle that left the table ends with the last event of its last step |
| Sequencer.ManualChoiceOff | uma_automation.py:466-473 | with manual choice off, the choice step succeeds at once and does nothing |
| Sequencer.CycleStops | uma_automation.py:466-472 | a cycle stops the automation exactly when its last step was the manual choice and it failed, which needs manual choice on |
| Sequencer.CycleCrashes | uma_automation.py:675-678 | a cycle ends in the exception handler exactly when its last step raised |
| Sequencer.CycleRestarts | uma_automation.py:428-664 | a cycle restarts exactly when its last step was a guarded step that returned False |
| Sequencer.CycleCompletes | uma_automation.py:424-670 | a completed cycle succeeded at every mandatory step (the guarded ones, manual choice and give_up_1), and its last event is the loop wait of step 18 |
| Sequencer.DoPhase | uma_automation.py:427-668 | each step's code does what the step's function says |
| Sequencer.PhaseRun | uma_automation.py:427-668 | each step's template, attempt count, `wait_after`, threshold and the waits that follow it, as the main loop calls them |
| Sequencer.TapAndSettle | uma_automation.py:428-434 | `find_and_tap`, then the step's wait only on success |
| Sequencer.CyclePass | uma_automation.py:424-668 | one step of a cycle, and the transition its outcome selects, leave the rest of the cycle from the target |
| Sequencer.CycleLoop | uma_automation.py:424-668 | the loop over the steps does what the cycle function says |
| Sequencer.CycleFrom | uma_automation.py:424-668 | the steps run one after another from the frames they leave, as the table leads, for at most `fuel` steps |
| Sequencer.RunCycle | uma_automation.py:424-668 | one cycle's end, events and attempts are those of the cycle function; no screenshot file outlives it |
| Sequencer.SessionEnds | uma_automation.py:422-678 | at most `cycles` cycles; the i-th end is that of the cycle started at the capture attempt where the earlier cycles left off; only a stop (or running out of fuel) ends the loop early |
| Sequencer.SessionStops | uma_automation.py:470-472 | the main loop stops only when manual choice is on |
| Sequencer.LoopPass | uma_automation.py:423-678 | one pass of the main loop: a cycle, then the 10-second cool-down when it raised |
| Sequencer.LoopCycles | uma_automation.py:422-678 | the main loop does what the session function says, for any description of a cycle that agrees with the cycle function |
| Sequencer.SessionFrom | uma_automation.py:418-678 | the cycles run one after another; a crash adds the 10-second cool-down; a stop ends the loop |
| Sequencer.RunAutomationLoop | uma_automation.py:418-678 | the loop's ends, events and attempts are those of the session function |

## Left out

- The debug bridge, the file system and OpenCV are left out. Capture,
  matching and the "use" scan are oracles. A screenshot file is a frame
  number in `live`.
- Device.Automation.TapCoordinate: a tap always succeeds. That matches the
  source for a non-zero exit status, which is only logged, and for a
  timeout, which is caught (lines 131-146). Any other error of the
  subprocess call, such as `FileNotFoundError` once `adb` is gone, is not
  modelled. In the source it passes through the `finally` of
  `find_and_tap` to the main loop's 10-second cool-down, or `tp_charge`
  turns it into False.
- Missing configuration keys are not modelled. The main loop reads
  `config["automation"][...]` with `[]` (lines 434, 438-439, 445-446, 521,
  538-539, 596, 668). A missing key raises `KeyError`, which crashes the
  cycle into the cool-down. `Device.Config` always holds every value.
- Negative waits are not modelled. A negative configured wait that goes
  through `self.wait` (the career, start-career, skip, confirm and loop
  waits, lines 434, 521, 538, 596, 668) makes `time.sleep` raise
  `ValueError`, which crashes the cycle likewise. The `wait_after` of a
  search (lines 162 and 218) is used only when positive, so a negative
  one is skipped and behaves as 0 does. The waits in `Device.Config`
  are `nat`.
- Logging is left out because it changes no state the model tracks.
- `load_config`, `test_adb_connection`, `main` and `test_setup.py` are
  left out: they do configuration and environment I/O. The configuration
  a loop reads is the `Config` record.
- `KeyboardInterrupt` is left out: it is an event outside the program.
- Floating-point scores and waits are left out. Scores are scaled by 1000
  and waits are whole milliseconds.
- Sequencer.RunAutomationLoop: runs at most `cycles` cycles of the
  `while True` loop. A cycle whose fuel runs out ends the modelled loop.
  Termination of the give-up recovery loop and the TP-charge loop is not
  claimed.
- Sequencer.RunCycle: runs at most `fuel` steps, because the two inner
  `while True` loops need not terminate.
- Device.Automation.TakeScreenshot: frames are numbered by capture
  attempt. The source names files by the current second, so two captures
  within one second share a file name; that collision is not modelled.
- UseButtonFilter.FindUseButtons: compares distances squared against 2500
  instead of taking `np.sqrt` against 50. For integer coordinates the two
  agree.
- UseButtonFilter.FindUseButtons: checks a column against the length of
  its own row, where the source uses the frame's width. The two agree for
  the rectangular frames OpenCV produces.
- FilterChoice.Upper: upper-cases ASCII letters only; Python's
  `str.upper` also maps other letters.
- FilterChoice.Choose: a configured value is taken as a string. The
  source's `str()` of a non-string value is not modelled.
- The images of `find_template` are reduced to the missing, unreadable
  and scored cases, because decoding and matching are foreign calls.
