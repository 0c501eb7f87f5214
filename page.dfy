/** The page's global state and its handlers, as they run: each method updates
    the fields one by one, as the script does, and is proved to produce the
    snapshot the matching function of `Detection` describes. */
module Page {
  import opened Sequencer
  import opened UploadCheck
  import opened Detection

  class Session {
    var media: string
    var imageType: Option<string>
    var flags: Flags
    var detectDisabled: bool
    var helmetDisabled: bool
    var plateDisabled: bool
    var progress: nat
    var status: string
    var results: Results

    function State(): Snapshot
      reads this
    {
      Snapshot(media, imageType, flags, detectDisabled, helmetDisabled, plateDisabled,
               progress, status, results)
    }

    constructor ()
      ensures State() == Initial
      ensures Coherent(State())
    {
      media, imageType := "", None;
      flags := Cleared;
      detectDisabled, helmetDisabled, plateDisabled := true, true, true;
      progress, status := 0, ReadyText;
      results := BlankResults;
    }

    /** `resetDetectionState`. */
    method ResetDetectionState()
      modifies this
      ensures State() == AfterReset(old(State()))
      ensures flags == Cleared && helmetDisabled && plateDisabled && progress == 0
      ensures media == old(media) && imageType == old(imageType)
      ensures Coherent(State())
    {
      flags := Flags(false, false, false, false);
      results := BlankResults;
      helmetDisabled := true;
      plateDisabled := true;
      progress := 0;
      status := ReadyText;
      ResetIsCoherent(old(State()));
    }

    /** The click handler of a sample image. */
    method SelectSample(src: string, dataType: Option<string>)
      modifies this
      ensures State() == AfterSample(old(State()), src, dataType)
      ensures media == src && imageType == dataType && !detectDisabled
      ensures Coherent(State())
    {
      media := src;
      imageType := dataType;
      ResetDetectionState();
      detectDisabled := false;
    }

    /** `handleFileSelect` with the reader's `onload` run at once. Returns the
        validation verdict, `None` when no file was chosen. */
    method HandleFileSelect(file: Option<FileInfo>, dataUrl: string) returns (verdict: Option<Verdict>)
      modifies this
      ensures State() == AfterUpload(old(State()), file, dataUrl)
      ensures verdict == if file.None? then None else Some(Validate(file.value))
      ensures verdict != Some(Accepted) ==> State() == old(State())
      ensures verdict == Some(Accepted) ==>
                media == dataUrl && imageType == Some("uploaded") && !detectDisabled
      ensures old(Coherent(State())) ==> Coherent(State())
    {
      if Coherent(State()) {
        ApplyKeepsCoherent(State(), ChooseFile(file, dataUrl));
      }
      if file.None? {
        verdict := None;
        return;
      }
      var f := file.value;
      if !IsMediaType(f.mimeType) {
        verdict := Some(NotMediaType);
        return;
      }
      if f.size > MaxUploadBytes {
        verdict := Some(TooLarge);
        return;
      }
      verdict := Some(Accepted);
      media := dataUrl;
      imageType := Some("uploaded");
      ResetDetectionState();
      detectDisabled := false;
    }

    /** The synchronous part of `simulateDetection(op)`. */
    method Start(op: Operation)
      modifies this
      ensures State() == AfterStart(old(State()), op)
      ensures progress == 0
      ensures old(Coherent(State())) ==> Coherent(State())
    {
      if Coherent(State()) {
        StartKeepsCoherent(State(), op);
      }
      match op {
        case Objects => detectDisabled := true;
        case Helmet => helmetDisabled := true;
        case Plate => plateDisabled := true;
        case Unrecognized =>
      }
      progress := 0;
    }

    /** The click handlers of the three buttons. A disabled button receives no
        click; the detect button's handler also refuses when no media is
        selected. Returns whether a run was started. */
    method ClickButton(op: Operation) returns (started: bool)
      modifies this
      ensures State() == Apply(old(State()), Click(op))
      ensures started <==> !ButtonDisabled(old(State()), op) && (op == Objects ==> old(media) != "")
      ensures !started ==> State() == old(State())
      ensures old(Coherent(State())) ==> Coherent(State())
    {
      if Coherent(State()) {
        ApplyKeepsCoherent(State(), Click(op));
      }
      if ButtonDisabled(State(), op) || (op == Objects && media == "") {
        started := false;
        return;
      }
      started := true;
      Start(op);
    }

    /** The callback scheduled for step `index` of `op`: the bar and status
        line move to the step, and the last step applies the outcome. */
    method CompleteStep(op: Operation, index: nat, coin: bool, plate: PlateIndex)
      requires index < |StepsOf(op)|
      modifies this
      ensures State() == AfterStep(old(State()), op, index, coin, plate)
      ensures progress == StepsOf(op)[index].progress
      ensures old(Coherent(State())) ==> Coherent(State())
    {
      if Coherent(State()) {
        StepKeepsCoherent(State(), op, index, coin, plate);
      }
      var steps := StepsOf(op);
      ShowStep(steps[index]);
      if index == |steps| - 1 {
        match op {
          case Objects => FinishObjects();
          case Helmet => FinishHelmet(coin);
          case Plate => FinishPlate(plate);
          case Unrecognized =>
        }
      }
    }

    /** What every step callback does first. */
    method ShowStep(step: Step)
      modifies this
      ensures State() == old(State()).(progress := step.progress, status := step.text)
    {
      progress := step.progress;
      status := step.text;
    }

    /** The last step of the objects run. */
    method FinishObjects()
      modifies this
      ensures State() == Outcome(old(State()), Objects, false, 0)
    {
      flags := flags.(bikeDetected := true);
      if imageType == Some("no-rider") {
        flags := flags.(personDetected := false);
        results := results.(person := "Not Detected");
      } else {
        flags := flags.(personDetected := true);
        results := results.(person := "Detected");
      }
      results := results.(bike := "Detected");
      helmetDisabled := !flags.personDetected;
    }

    /** The last step of the helmet run; `coin` is `Math.random() > 0.5`. */
    method FinishHelmet(coin: bool)
      modifies this
      ensures State() == Outcome(old(State()), Helmet, coin, 0)
    {
      if imageType == Some("with-helmet") {
        flags := flags.(helmetDetected := true);
        results := results.(helmet := "Detected", compliance := "COMPLIANT", violationAlert := false);
      } else if imageType == Some("no-helmet") {
        flags := flags.(helmetDetected := false);
        results := results.(helmet := "Not Detected", compliance := "VIOLATION", violationAlert := true);
      } else {
        flags := flags.(helmetDetected := coin);
        if flags.helmetDetected {
          results := results.(helmet := "Detected", compliance := "COMPLIANT", violationAlert := false);
        } else {
          results := results.(helmet := "Not Detected", compliance := "VIOLATION", violationAlert := true);
        }
      }
      plateDisabled := false;
    }

    /** The last step of the plate run; `plate` is the random index. */
    method FinishPlate(plate: PlateIndex)
      modifies this
      ensures State() == Outcome(old(State()), Plate, false, plate)
    {
      if imageType == Some("no-rider") {
        flags := flags.(plateExtracted := false);
        results := results.(plate := "Not Found", plateDisplay := "NOT DETECTED",
                            extraction := "FAILED", confidence := ZeroPercent,
                            plateViolationAlert := true);
      } else {
        flags := flags.(plateExtracted := true);
        var p := PlateFormats[plate];
        results := results.(plate := p, plateDisplay := p,
                            extraction := "SUCCESS", confidence := Reading,
                            plateViolationAlert := false);
      }
    }

    /** The callbacks one `simulateDetection(op)` call schedules, fired in
        index order, as their increasing delays make them fire. */
    method FireScheduledSteps(op: Operation, coin: bool, plate: PlateIndex)
      modifies this
      ensures State() == RunSteps(old(State()), op, |StepsOf(op)|, coin, plate)
      ensures old(Coherent(State())) ==> Coherent(State())
    {
      ghost var before := State();
      var steps := StepsOf(op);
      var i := 0;
      while i < |steps|
        invariant 0 <= i <= |steps|
        invariant State() == RunSteps(before, op, i, coin, plate)
        invariant Coherent(before) ==> Coherent(State())
      {
        CompleteStep(op, i, coin, plate);
        i := i + 1;
      }
    }

    /** `simulateDetection(op)` from the call to its last callback. */
    method SimulateDetection(op: Operation, coin: bool, plate: PlateIndex)
      modifies this
      ensures State() == Simulated(old(State()), op, coin, plate)
      ensures op != Unrecognized ==> progress == 100
      ensures op == Unrecognized ==> State() == old(State()).(progress := 0)
      ensures old(Coherent(State())) ==> Coherent(State())
    {
      SimulatedMeaning(State(), op, coin, plate);
      Start(op);
      FireScheduledSteps(op, coin, plate);
    }
  }

  /** A button press on a page whose button is enabled, followed by every
      callback it scheduled. */
  method PressAndWait(session: Session, op: Operation, coin: bool, plate: PlateIndex)
    requires !ButtonDisabled(session.State(), op)
    requires op == Objects ==> session.media != ""
    modifies session
    ensures session.State() == Simulated(old(session.State()), op, coin, plate)
  {
    var started := session.ClickButton(op);
    session.FireScheduledSteps(op, coin, plate);
  }

  /** A page session from load through a `with-helmet` sample and all three
      operations, driven through the handlers. */
  method WithHelmetSession(coin: bool, plate: PlateIndex) returns (session: Session)
    ensures session.flags == Flags(true, true, true, true)
    ensures session.results.compliance == "COMPLIANT"
    ensures session.results.extraction == "SUCCESS"
    ensures session.results.plate in PlateFormats
    ensures Coherent(session.State())
  {
    session := new Session();
    session.SelectSample("helmet.jpg", Some("with-helmet"));
    ghost var s1 := session.State();
    SimulatedMeaning(s1, Objects, coin, plate);
    ghost var s2 := Simulated(s1, Objects, coin, plate);
    SimulatedMeaning(s2, Helmet, coin, plate);
    ghost var s3 := Simulated(s2, Helmet, coin, plate);
    SimulatedMeaning(s3, Plate, coin, plate);
    ghost var s4 := Simulated(s3, Plate, coin, plate);
    assert s2.flags.personDetected && !s2.helmetDisabled && s2.imageType == Some("with-helmet");
    assert s3.flags.helmetDetected && !s3.plateDisabled && s3.imageType == Some("with-helmet");
    assert s4.flags == Flags(true, true, true, true);
    RunKeepsCoherent(s1, [Click(Objects)] + Timers(Objects, coin, plate));
    ClickThenTimers(s1, Objects, coin, plate);
    RunKeepsCoherent(s2, [Click(Helmet)] + Timers(Helmet, coin, plate));
    ClickThenTimers(s2, Helmet, coin, plate);
    RunKeepsCoherent(s3, [Click(Plate)] + Timers(Plate, coin, plate));
    ClickThenTimers(s3, Plate, coin, plate);

    PressAndWait(session, Objects, coin, plate);
    PressAndWait(session, Helmet, coin, plate);
    PressAndWait(session, Plate, coin, plate);
  }
}
