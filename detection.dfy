/** The page's session state as a value, and the effect of each handler and
    timer callback of the detection page on it. The class `Page.Session`
    performs these effects field by field; the functions here are what its
    methods are proved against, and the lemmas below state what the page
    promises about them. */
module Detection {
  import opened Sequencer
  import opened UploadCheck

  datatype Option<T> = None | Some(value: T)

  /** The `detectionState` record. */
  datatype Flags = Flags(bikeDetected: bool, personDetected: bool, helmetDetected: bool, plateExtracted: bool)

  const Cleared: Flags := Flags(false, false, false, false)

  /** The confidence field: `-`, `0%`, or the random reading of a successful
      extraction (a one-decimal number from 92 to 98, not modelled). */
  datatype Confidence = Blank | ZeroPercent | Reading

  /** The result fields of the page that the handlers write: the text of each
      result element and badge, and whether each alert box is displayed. */
  datatype Results = Results(
    bike: string, person: string, helmet: string,
    compliance: string, violationAlert: bool,
    plate: string, plateDisplay: string, extraction: string,
    confidence: Confidence, plateViolationAlert: bool)

  /** The result fields as `resetDetectionState` leaves them. */
  const BlankResults: Results :=
    Results("-", "-", "-", "-", false, "-", "LICENSE PLATE", "-", Blank, false)

  const ReadyText: string := "Ready for detection"

  /** Everything the detection logic reads or writes. `media` is
      `currentMedia`, with the empty string standing for `null` (the page only
      tests it for truthiness); `imageType` is `currentImageType`. */
  datatype Snapshot = Snapshot(
    media: string,
    imageType: Option<string>,
    flags: Flags,
    detectDisabled: bool,
    helmetDisabled: bool,
    plateDisabled: bool,
    progress: nat,
    status: string,
    results: Results)

  // ---------------------------------------------------------------------
  // Transitions

  /** `resetDetectionState`. */
  function AfterReset(s: Snapshot): Snapshot
  {
    s.(flags := Cleared, results := BlankResults,
       helmetDisabled := true, plateDisabled := true,
       progress := 0, status := ReadyText)
  }

  /** The click handler of a sample image with source `src` and `data-type`
      attribute `dataType` (`None` when the attribute is absent). */
  function AfterSample(s: Snapshot, src: string, dataType: Option<string>): Snapshot
  {
    AfterReset(s.(media := src, imageType := dataType)).(detectDisabled := false)
  }

  /** `handleFileSelect` followed by the reader's `onload`, as one step. `file`
      is `None` when no file was chosen; `dataUrl` is what the reader
      produced. */
  function AfterUpload(s: Snapshot, file: Option<FileInfo>, dataUrl: string): Snapshot
  {
    match file
    case None => s
    case Some(f) =>
      if Validate(f) != Accepted then s
      else AfterReset(s.(media := dataUrl, imageType := Some("uploaded"))).(detectDisabled := false)
  }

  /** The synchronous part of `simulateDetection(op)`: the operation's own
      button is disabled and the bar goes back to 0. */
  function AfterStart(s: Snapshot, op: Operation): Snapshot
  {
    match op
    case Objects => s.(detectDisabled := true, progress := 0)
    case Helmet => s.(helmetDisabled := true, progress := 0)
    case Plate => s.(plateDisabled := true, progress := 0)
    case Unrecognized => s.(progress := 0)
  }

  /** The outcome an operation's last step applies. `coin` is the
      `Math.random() > 0.5` of the helmet check, `plate` the random index into
      the plate list. */
  function Outcome(s: Snapshot, op: Operation, coin: bool, plate: PlateIndex): Snapshot
  {
    match op
    case Objects =>
      var person := s.imageType != Some("no-rider");
      s.(flags := s.flags.(bikeDetected := true, personDetected := person),
         results := s.results.(bike := "Detected",
                               person := if person then "Detected" else "Not Detected"),
         helmetDisabled := !person)
    case Helmet =>
      var helmet := if s.imageType == Some("with-helmet") then true
                    else if s.imageType == Some("no-helmet") then false
                    else coin;
      s.(flags := s.flags.(helmetDetected := helmet),
         results := s.results.(helmet := if helmet then "Detected" else "Not Detected",
                               compliance := if helmet then "COMPLIANT" else "VIOLATION",
                               violationAlert := !helmet),
         plateDisabled := false)
    case Plate =>
      if s.imageType == Some("no-rider") then
        s.(flags := s.flags.(plateExtracted := false),
           results := s.results.(plate := "Not Found", plateDisplay := "NOT DETECTED",
                                 extraction := "FAILED", confidence := ZeroPercent,
                                 plateViolationAlert := true))
      else
        var p := PickPlate(plate);
        s.(flags := s.flags.(plateExtracted := true),
           results := s.results.(plate := p, plateDisplay := p,
                                 extraction := "SUCCESS", confidence := Reading,
                                 plateViolationAlert := false))
    case Unrecognized => s
  }

  /** The timer callback of step `index` of `op`. */
  function AfterStep(s: Snapshot, op: Operation, index: nat, coin: bool, plate: PlateIndex): Snapshot
    requires index < |StepsOf(op)|
  {
    var step := StepsOf(op)[index];
    var shown := s.(progress := step.progress, status := step.text);
    if index == |StepsOf(op)| - 1 then Outcome(shown, op, coin, plate) else shown
  }

  /** The first `n` timer callbacks of one `simulateDetection(op)` call, fired
      in index order. */
  function RunSteps(s: Snapshot, op: Operation, n: nat, coin: bool, plate: PlateIndex): Snapshot
    requires n <= |StepsOf(op)|
  {
    if n == 0 then s else AfterStep(RunSteps(s, op, n - 1, coin, plate), op, n - 1, coin, plate)
  }

  /** A whole `simulateDetection(op)` call with every step fired. */
  function Simulated(s: Snapshot, op: Operation, coin: bool, plate: PlateIndex): Snapshot
  {
    RunSteps(AfterStart(s, op), op, |StepsOf(op)|, coin, plate)
  }

  // ---------------------------------------------------------------------
  // What each transition promises

  lemma ResetMeaning(s: Snapshot)
    ensures var r := AfterReset(s);
      r.flags == Flags(false, false, false, false) &&
      r.helmetDisabled && r.plateDisabled && r.progress == 0 &&
      r.media == s.media && r.imageType == s.imageType &&
      r.detectDisabled == s.detectDisabled &&
      AfterReset(r) == r
  {
  }

  /** A successful selection replaces the whole session: what came before
      it leaves no trace. */
  lemma SelectionForgetsHistory(s: Snapshot, t: Snapshot, src: string, dataType: Option<string>,
                                f: FileInfo, dataUrl: string)
    ensures AfterSample(s, src, dataType) == AfterSample(t, src, dataType)
    ensures Validate(f) == Accepted ==>
              AfterUpload(s, Some(f), dataUrl) == AfterUpload(t, Some(f), dataUrl)
  {
  }

  lemma SampleMeaning(s: Snapshot, src: string, dataType: Option<string>)
    ensures var r := AfterSample(s, src, dataType);
      r == AfterReset(r) && !r.detectDisabled &&
      r.media == src && r.imageType == dataType
  {
  }

  /** A valid upload resets the session, tags it `uploaded` and enables the
      detect button; a missing or refused file changes nothing. */
  lemma UploadMeaning(s: Snapshot, file: Option<FileInfo>, dataUrl: string)
    ensures var r := AfterUpload(s, file, dataUrl);
      if file.Some? && Validate(file.value) == Accepted then
        r == AfterReset(r) && !r.detectDisabled &&
        r.media == dataUrl && r.imageType == Some("uploaded")
      else r == s
  {
  }

  /** Starting changes only the operation's own button and the bar. */
  lemma StartMeaning(s: Snapshot, op: Operation)
    ensures var r := AfterStart(s, op);
      r.progress == 0 && r.flags == s.flags && r.results == s.results &&
      r.media == s.media && r.imageType == s.imageType && r.status == s.status &&
      r.detectDisabled == (op == Objects || s.detectDisabled) &&
      r.helmetDisabled == (op == Helmet || s.helmetDisabled) &&
      r.plateDisabled == (op == Plate || s.plateDisabled)
  {
  }

  /** A step other than the last changes the bar and the status line only. */
  lemma EarlyStepMeaning(s: Snapshot, op: Operation, index: nat, coin: bool, plate: PlateIndex)
    requires index + 1 < |StepsOf(op)|
    ensures AfterStep(s, op, index, coin, plate) ==
              s.(progress := StepsOf(op)[index].progress, status := StepsOf(op)[index].text)
  {
  }

  /** The objects outcome: a bike always, a person unless the image is tagged
      `no-rider`, and the helmet button enabled exactly when a person was
      found. */
  lemma ObjectsOutcome(s: Snapshot, coin: bool, plate: PlateIndex)
    ensures var r := AfterStep(s, Objects, 5, coin, plate);
      r.flags.bikeDetected &&
      (r.flags.personDetected <==> s.imageType != Some("no-rider")) &&
      (!r.helmetDisabled <==> r.flags.personDetected) &&
      r.flags.helmetDetected == s.flags.helmetDetected &&
      r.flags.plateExtracted == s.flags.plateExtracted &&
      r.detectDisabled == s.detectDisabled && r.plateDisabled == s.plateDisabled &&
      r.progress == 100
  {
  }

  /** The helmet outcome: decided by the tag for `with-helmet` and
      `no-helmet`, by the coin otherwise; the plate button is enabled in every
      case and `helmetDetected` is the only flag that changes. */
  lemma HelmetOutcome(s: Snapshot, coin: bool, plate: PlateIndex)
    ensures var r := AfterStep(s, Helmet, 3, coin, plate);
      (s.imageType == Some("with-helmet") ==> r.flags.helmetDetected && r.results.compliance == "COMPLIANT") &&
      (s.imageType == Some("no-helmet") ==> !r.flags.helmetDetected && r.results.compliance == "VIOLATION") &&
      (s.imageType != Some("with-helmet") && s.imageType != Some("no-helmet") ==>
         r.flags.helmetDetected == coin) &&
      (r.results.compliance == "COMPLIANT" <==> r.flags.helmetDetected) &&
      (r.results.violationAlert <==> !r.flags.helmetDetected) &&
      !r.plateDisabled &&
      r.flags == s.flags.(helmetDetected := r.flags.helmetDetected) &&
      r.detectDisabled == s.detectDisabled && r.helmetDisabled == s.helmetDisabled &&
      r.progress == 100
  {
  }

  /** The plate outcome: failure with `0%` for `no-rider`, otherwise success
      with a plate from the fixed list. */
  lemma PlateOutcome(s: Snapshot, coin: bool, plate: PlateIndex)
    ensures var r := AfterStep(s, Plate, 4, coin, plate);
      (s.imageType == Some("no-rider") ==>
         !r.flags.plateExtracted && r.results.extraction == "FAILED" &&
         r.results.confidence == ZeroPercent && r.results.plate == "Not Found") &&
      (s.imageType != Some("no-rider") ==>
         r.flags.plateExtracted && r.results.extraction == "SUCCESS" &&
         r.results.plate == PlateFormats[plate] && r.results.plate in PlateFormats &&
         r.results.plateDisplay == r.results.plate) &&
      r.flags == s.flags.(plateExtracted := r.flags.plateExtracted) &&
      r.detectDisabled == s.detectDisabled && r.helmetDisabled == s.helmetDisabled &&
      r.plateDisabled == s.plateDisabled &&
      r.progress == 100
  {
  }

  /** Before its last step, a run has moved only the bar and the status line,
      to the values of the latest step fired. */
  lemma {:induction false} RunBeforeLastStep(s: Snapshot, op: Operation, n: nat, coin: bool, plate: PlateIndex)
    requires 0 < n < |StepsOf(op)|
    ensures RunSteps(s, op, n, coin, plate) ==
              s.(progress := StepsOf(op)[n - 1].progress, status := StepsOf(op)[n - 1].text)
  {
    if n > 1 {
      RunBeforeLastStep(s, op, n - 1, coin, plate);
    }
  }

  /** A whole run is the start followed by the outcome, with the bar at 100
      and the status line at the last step's text; an unrecognised operation
      only resets the bar. */
  lemma SimulatedMeaning(s: Snapshot, op: Operation, coin: bool, plate: PlateIndex)
    ensures op == Unrecognized ==> Simulated(s, op, coin, plate) == s.(progress := 0)
    ensures op != Unrecognized ==>
              var last := StepsOf(op)[|StepsOf(op)| - 1];
              Simulated(s, op, coin, plate) ==
                Outcome(AfterStart(s, op).(progress := 100, status := last.text), op, coin, plate)
  {
    if op != Unrecognized {
      RunBeforeLastStep(AfterStart(s, op), op, |StepsOf(op)| - 1, coin, plate);
    }
  }

  // ---------------------------------------------------------------------
  // The page as a sequence of events

  /** What can happen on the page: a sample is clicked, a file is chosen
      (by the input or by a drop), a button is clicked, or a scheduled step
      callback fires. A timer event may fire at any point, so stale callbacks
      of an earlier run are covered too. */
  datatype Event =
    | PickSample(src: string, dataType: Option<string>)
    | ChooseFile(file: Option<FileInfo>, dataUrl: string)
    | Click(op: Operation)
    | TimerFires(op: Operation, index: nat, coin: bool, plate: PlateIndex)

  /** A disabled button receives no clicks; there is no button for an
      unrecognised operation. */
  predicate ButtonDisabled(s: Snapshot, op: Operation)
  {
    match op
    case Objects => s.detectDisabled
    case Helmet => s.helmetDisabled
    case Plate => s.plateDisabled
    case Unrecognized => true
  }

  function Apply(s: Snapshot, e: Event): Snapshot
  {
    match e
    case PickSample(src, dataType) => AfterSample(s, src, dataType)
    case ChooseFile(file, dataUrl) => AfterUpload(s, file, dataUrl)
    case Click(op) =>
      if ButtonDisabled(s, op) then s
      else if op == Objects && s.media == "" then s
      else AfterStart(s, op)
    case TimerFires(op, index, coin, plate) =>
      if index < |StepsOf(op)| then AfterStep(s, op, index, coin, plate) else s
  }

  function Run(s: Snapshot, events: seq<Event>): Snapshot
    decreases |events|
  {
    if events == [] then s else Run(Apply(s, events[0]), events[1..])
  }

  /** The gating and consistency rules the page keeps: the helmet button is
      enabled only once a person is detected, the plate button only once a
      helmet outcome is shown, and each flag agrees with the text that
      reports it. */
  ghost predicate Coherent(s: Snapshot)
  {
    (!s.helmetDisabled ==> s.flags.personDetected) &&
    (!s.plateDisabled ==> s.results.compliance != "-") &&
    (s.flags.personDetected ==> s.flags.bikeDetected) &&
    (s.flags.bikeDetected <==> s.results.bike == "Detected") &&
    (s.flags.personDetected <==> s.results.person == "Detected") &&
    (s.flags.helmetDetected <==> s.results.compliance == "COMPLIANT") &&
    (s.flags.helmetDetected <==> s.results.helmet == "Detected") &&
    (s.results.violationAlert <==> s.results.compliance == "VIOLATION") &&
    (s.flags.plateExtracted <==> s.results.extraction == "SUCCESS") &&
    (s.results.plateViolationAlert <==> s.results.extraction == "FAILED") &&
    (s.flags.plateExtracted ==> s.results.plate in PlateFormats &&
                                s.results.plateDisplay == s.results.plate) &&
    s.progress <= 100
  }

  lemma ResetIsCoherent(s: Snapshot)
    ensures Coherent(AfterReset(s))
  {
  }

  lemma StartKeepsCoherent(s: Snapshot, op: Operation)
    requires Coherent(s)
    ensures Coherent(AfterStart(s, op))
  {
  }

  lemma StepKeepsCoherent(s: Snapshot, op: Operation, index: nat, coin: bool, plate: PlateIndex)
    requires Coherent(s)
    requires index < |StepsOf(op)|
    ensures Coherent(AfterStep(s, op, index, coin, plate))
  {
    var step := StepsOf(op)[index];
    var shown := s.(progress := step.progress, status := step.text);
    assert Coherent(shown);
    if index == |StepsOf(op)| - 1 {
      OutcomeKeepsCoherent(shown, op, coin, plate);
    }
  }

  lemma OutcomeKeepsCoherent(s: Snapshot, op: Operation, coin: bool, plate: PlateIndex)
    requires Coherent(s)
    ensures Coherent(Outcome(s, op, coin, plate))
  {
    match op
    case Objects =>
    case Helmet =>
    case Plate =>
      if s.imageType != Some("no-rider") {
        assert PickPlate(plate) in PlateFormats;
      }
    case Unrecognized =>
  }

  lemma ApplyKeepsCoherent(s: Snapshot, e: Event)
    requires Coherent(s)
    ensures Coherent(Apply(s, e))
  {
    match e
    case PickSample(src, dataType) =>
      ResetIsCoherent(s.(media := src, imageType := dataType));
    case ChooseFile(file, dataUrl) =>
      ResetIsCoherent(s.(media := dataUrl, imageType := Some("uploaded")));
    case Click(op) =>
      StartKeepsCoherent(s, op);
    case TimerFires(op, index, coin, plate) =>
      if index < |StepsOf(op)| {
        StepKeepsCoherent(s, op, index, coin, plate);
      }
  }

  lemma {:induction false} RunKeepsCoherent(s: Snapshot, events: seq<Event>)
    requires Coherent(s)
    ensures Coherent(Run(s, events))
    decreases |events|
  {
    if events != [] {
      ApplyKeepsCoherent(s, events[0]);
      RunKeepsCoherent(Apply(s, events[0]), events[1..]);
    }
  }

  /** The objects run is refused while no media is selected, and a helmet run
      can be started only once a person has been detected. */
  lemma ClicksAreGated(s: Snapshot)
    requires Coherent(s)
    ensures s.media == "" ==> Apply(s, Click(Objects)) == s
    ensures Apply(s, Click(Helmet)) != s ==> s.flags.personDetected
    ensures Apply(s, Click(Plate)) != s ==> s.results.compliance != "-"
  {
  }

  /** A sample pick, or a chosen file that passes validation: the events
      that put new media on the page. A cancelled or refused upload is not
      one. */
  predicate SelectsMedia(e: Event)
  {
    e.PickSample? || (e.ChooseFile? && e.file.Some? && Validate(e.file.value) == Accepted)
  }

  /** Once an objects run has disabled the detect button, only a new
      selection enables it again; cancelled and refused uploads leave it
      disabled. */
  lemma {:induction false} DetectStaysDisabled(s: Snapshot, events: seq<Event>)
    requires s.detectDisabled
    requires forall k :: 0 <= k < |events| ==> !SelectsMedia(events[k])
    ensures Run(s, events).detectDisabled
    decreases |events|
  {
    if events != [] {
      assert !SelectsMedia(events[0]);
      DetectStaysDisabled(Apply(s, events[0]), events[1..]);
    }
  }

  /** All timer callbacks of one run, in index order. */
  function Timers(op: Operation, coin: bool, plate: PlateIndex): (events: seq<Event>)
    ensures |events| == |StepsOf(op)|
    ensures forall k :: 0 <= k < |events| ==> events[k] == TimerFires(op, k, coin, plate)
  {
    seq(|StepsOf(op)|, k requires 0 <= k => TimerFires(op, k, coin, plate))
  }

  /** Firing the callbacks of `op` in index order is the run of `RunSteps`. */
  lemma {:induction false} TimersRunSteps(s: Snapshot, op: Operation, n: nat, coin: bool, plate: PlateIndex)
    requires n <= |StepsOf(op)|
    ensures Run(s, Timers(op, coin, plate)[..n]) == RunSteps(s, op, n, coin, plate)
  {
    if n > 0 {
      var evs := Timers(op, coin, plate);
      TimersRunSteps(s, op, n - 1, coin, plate);
      RunAppend(s, evs[..n - 1], [evs[n - 1]]);
      assert evs[..n] == evs[..n - 1] + [evs[n - 1]];
    }
  }

  lemma {:induction false} RunAppend(s: Snapshot, xs: seq<Event>, ys: seq<Event>)
    ensures Run(s, xs + ys) == Run(Run(s, xs), ys)
    decreases |xs|
  {
    if xs != [] {
      assert (xs + ys)[0] == xs[0];
      assert (xs + ys)[1..] == xs[1..] + ys;
      RunAppend(Apply(s, xs[0]), xs[1..], ys);
      assert Run(s, xs + ys) == Run(Apply(s, xs[0]), xs[1..] + ys);
    } else {
      assert xs + ys == ys;
    }
  }

  /** A click on an enabled button followed by all of that run's callbacks
      is one whole `simulateDetection` call. */
  lemma ClickThenTimers(s: Snapshot, op: Operation, coin: bool, plate: PlateIndex)
    requires !ButtonDisabled(s, op)
    requires op == Objects ==> s.media != ""
    ensures Run(s, [Click(op)] + Timers(op, coin, plate)) == Simulated(s, op, coin, plate)
  {
    var evs := Timers(op, coin, plate);
    RunAppend(s, [Click(op)], evs);
    assert Run(s, [Click(op)]) == AfterStart(s, op) by {
      assert [Click(op)][1..] == [];
    }
    TimersRunSteps(AfterStart(s, op), op, |evs|, coin, plate);
    assert evs[..|evs|] == evs;
  }

  /** Callbacks are not tied to the selection they were scheduled for: the
      last objects callback of a run started before a new sample was picked
      still applies its outcome to the new sample, enabling the helmet button
      although no detection was started on it. */
  lemma StaleCallbackReachesNewSelection(s: Snapshot, src: string, coin: bool, plate: PlateIndex)
    ensures var r := Run(s, [PickSample(src, Some("with-helmet")), TimerFires(Objects, 5, coin, plate)]);
      !r.helmetDisabled && r.flags.personDetected && !r.detectDisabled
  {
    var e := [PickSample(src, Some("with-helmet")), TimerFires(Objects, 5, coin, plate)];
    var s1 := AfterSample(s, src, Some("with-helmet"));
    var s2 := AfterStep(s1, Objects, 5, coin, plate);
    assert e[1..] == [TimerFires(Objects, 5, coin, plate)];
    assert e[1..][1..] == [];
    assert Run(s1, e[1..]) == s2;
    ObjectsOutcome(s1, coin, plate);
  }

  /** Callbacks left over from an earlier helmet run also reach a `no-rider`
      sample: the last one enables the plate button, and a plate click then
      runs to a failed extraction at `0%`. Without such a callback the plate
      button stays disabled for `no-rider` (`NoRiderScenario`). */
  lemma StaleHelmetCallbackUnlocksPlate(s: Snapshot, src: string, coin: bool, plate: PlateIndex)
    ensures var r := Run(s, [PickSample(src, Some("no-rider")), TimerFires(Helmet, 3, coin, plate)]);
      r.imageType == Some("no-rider") && !r.plateDisabled &&
      Apply(r, Click(Plate)) != r &&
      var q := Simulated(r, Plate, coin, plate);
      !q.flags.plateExtracted && q.results.extraction == "FAILED" &&
      q.results.confidence == ZeroPercent
  {
    var e := [PickSample(src, Some("no-rider")), TimerFires(Helmet, 3, coin, plate)];
    var s1 := AfterSample(s, src, Some("no-rider"));
    var r := AfterStep(s1, Helmet, 3, coin, plate);
    assert e[1..] == [TimerFires(Helmet, 3, coin, plate)];
    assert e[1..][1..] == [];
    assert Run(s1, e[1..]) == r;
    HelmetOutcome(s1, coin, plate);
    SimulatedMeaning(r, Plate, coin, plate);
  }

  /** The page before any selection. Its button states come from the page
      markup, which is not part of this model; all three are taken to be
      disabled and the result fields to show their reset text. */
  const Initial: Snapshot :=
    Snapshot("", None, Cleared, true, true, true, 0, ReadyText, BlankResults)

  lemma InitialIsCoherent()
    ensures Coherent(Initial)
    ensures forall op :: Apply(Initial, Click(op)) == Initial
  {
  }

  // ---------------------------------------------------------------------
  // End-to-end runs

  /** A sample tagged `no-helmet`, then detection, then the helmet check:
      bike and rider found, no helmet, a violation. */
  lemma NoHelmetScenario(s: Snapshot, src: string, coin: bool, plate: PlateIndex)
    requires src != ""
    ensures var r := Run(s, [PickSample(src, Some("no-helmet"))] +
                            ([Click(Objects)] + Timers(Objects, coin, plate)) +
                            ([Click(Helmet)] + Timers(Helmet, coin, plate)));
      r.flags.bikeDetected && r.flags.personDetected && !r.flags.helmetDetected &&
      r.results.compliance == "VIOLATION" && r.results.violationAlert && !r.plateDisabled
  {
    var a := [PickSample(src, Some("no-helmet"))];
    var b := [Click(Objects)] + Timers(Objects, coin, plate);
    var c := [Click(Helmet)] + Timers(Helmet, coin, plate);
    var s1 := AfterSample(s, src, Some("no-helmet"));
    assert Run(s, a) == s1 by { assert a[1..] == []; }
    ClickThenTimers(s1, Objects, coin, plate);
    var s2 := Simulated(s1, Objects, coin, plate);
    SimulatedMeaning(s1, Objects, coin, plate);
    ClickThenTimers(s2, Helmet, coin, plate);
    SimulatedMeaning(s2, Helmet, coin, plate);
    RunAppend(s, a, b);
    RunAppend(s, a + b, c);
  }

  /** A sample tagged `no-rider`: detection finds the bike only, the helmet
      and plate buttons stay disabled so their clicks do nothing, and a plate
      run started directly reports a failure at 0%. */
  lemma NoRiderScenario(s: Snapshot, src: string, coin: bool, plate: PlateIndex)
    requires src != ""
    ensures var r := Run(s, [PickSample(src, Some("no-rider"))] +
                            ([Click(Objects)] + Timers(Objects, coin, plate)));
      r.flags.bikeDetected && !r.flags.personDetected &&
      r.helmetDisabled && r.plateDisabled &&
      Apply(r, Click(Helmet)) == r && Apply(r, Click(Plate)) == r &&
      var q := Simulated(r, Plate, coin, plate);
      !q.flags.plateExtracted && q.results.extraction == "FAILED" &&
      q.results.confidence == ZeroPercent
  {
    var a := [PickSample(src, Some("no-rider"))];
    var b := [Click(Objects)] + Timers(Objects, coin, plate);
    var s1 := AfterSample(s, src, Some("no-rider"));
    assert Run(s, a) == s1 by { assert a[1..] == []; }
    ClickThenTimers(s1, Objects, coin, plate);
    var s2 := Simulated(s1, Objects, coin, plate);
    SimulatedMeaning(s1, Objects, coin, plate);
    SimulatedMeaning(s2, Plate, coin, plate);
    RunAppend(s, a, b);
  }

  /** A sample tagged `with-helmet` through all three operations: compliant,
      and a plate from the fixed list extracted successfully. */
  lemma WithHelmetScenario(s: Snapshot, src: string, coin: bool, plate: PlateIndex)
    requires src != ""
    ensures var r := Run(s, [PickSample(src, Some("with-helmet"))] +
                            ([Click(Objects)] + Timers(Objects, coin, plate)) +
                            ([Click(Helmet)] + Timers(Helmet, coin, plate)) +
                            ([Click(Plate)] + Timers(Plate, coin, plate)));
      r.flags == Flags(true, true, true, true) &&
      r.results.compliance == "COMPLIANT" && r.results.extraction == "SUCCESS" &&
      r.results.plate in PlateFormats && r.progress == 100
  {
    var a := [PickSample(src, Some("with-helmet"))];
    var b := [Click(Objects)] + Timers(Objects, coin, plate);
    var c := [Click(Helmet)] + Timers(Helmet, coin, plate);
    var d := [Click(Plate)] + Timers(Plate, coin, plate);
    var s1 := AfterSample(s, src, Some("with-helmet"));
    assert Run(s, a) == s1 by { assert a[1..] == []; }
    ClickThenTimers(s1, Objects, coin, plate);
    var s2 := Simulated(s1, Objects, coin, plate);
    SimulatedMeaning(s1, Objects, coin, plate);
    ClickThenTimers(s2, Helmet, coin, plate);
    var s3 := Simulated(s2, Helmet, coin, plate);
    SimulatedMeaning(s2, Helmet, coin, plate);
    ClickThenTimers(s3, Plate, coin, plate);
    SimulatedMeaning(s3, Plate, coin, plate);
    RunAppend(s, a, b);
    RunAppend(s, a + b, c);
    RunAppend(s, a + b + c, d);
  }
}
