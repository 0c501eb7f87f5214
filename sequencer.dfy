/** The scripted part of the detector: the fixed step table of each operation
    and the fixed list of plate strings the plate extraction picks from. */
module Sequencer {

  /** The operation `simulateDetection` is asked for; any other type string
      falls through every branch and is `Unrecognized`. */
  datatype Operation = Objects | Helmet | Plate | Unrecognized

  /** One entry of a step table: the status text shown and the progress
      percentage the bar is set to when the step fires. */
  datatype Step = Step(text: string, progress: nat)

  predicate StrictlyIncreasing(steps: seq<Step>)
  {
    forall i, j :: 0 <= i < j < |steps| ==> steps[i].progress < steps[j].progress
  }

  /** The step table of an operation. */
  function StepsOf(op: Operation): (steps: seq<Step>)
    ensures op == Objects ==> |steps| == 6
    ensures op == Helmet ==> |steps| == 4
    ensures op == Plate ==> |steps| == 5
    ensures steps == [] <==> op == Unrecognized
  {
    match op
    case Objects =>
      [ Step("Initializing YOLO v2 detection model...", 10),
        Step("Processing media frame...", 25),
        Step("Detecting objects in frame...", 50),
        Step("Identifying vehicle types...", 70),
        Step("Locating riders...", 85),
        Step("Detection complete!", 100) ]
    case Helmet =>
      [ Step("Loading helmet detection model...", 10),
        Step("Analyzing rider head regions...", 40),
        Step("Checking safety equipment...", 70),
        Step("Classification complete!", 100) ]
    case Plate =>
      [ Step("Initializing OCR engine...", 10),
        Step("Locating license plate region...", 30),
        Step("Extracting characters...", 60),
        Step("Validating plate format...", 85),
        Step("Extraction complete!", 100) ]
    case Unrecognized => []
  }

  /** Every table's progress rises strictly, stays within 1..100 and ends at
      100. */
  lemma StepTablesRiseToFull(op: Operation)
    ensures StrictlyIncreasing(StepsOf(op))
    ensures forall i :: 0 <= i < |StepsOf(op)| ==> 0 < StepsOf(op)[i].progress <= 100
    ensures StepsOf(op) != [] ==> StepsOf(op)[|StepsOf(op)| - 1].progress == 100
  {
  }

  /** The plate strings a successful extraction chooses among. */
  const PlateFormats: seq<string> :=
    [ "ABC-1234", "XYZ-5678", "MH12-AB1234", "DL-9C-AB-1234",
      "KA-01-AB-1234", "TN-09-AX-5678", "GJ-05-BC-9876" ]

  /** `Math.floor(Math.random() * formats.length)` with seven formats: the
      random draw becomes an index chosen by the caller. */
  type PlateIndex = i: int | 0 <= i < 7

  function PickPlate(i: PlateIndex): (plate: string)
    ensures plate in PlateFormats
    ensures 8 <= |plate| <= 13
  {
    PlateFormats[i]
  }

  /** Distinct indices give distinct plates, and every listed plate can come
      out: a uniform index yields a uniform plate. */
  lemma PickPlateIsBijective(i: PlateIndex, j: PlateIndex)
    ensures PickPlate(i) == PickPlate(j) <==> i == j
    ensures |PlateFormats| == 7
    ensures forall plate :: plate in PlateFormats ==> exists k: PlateIndex :: PickPlate(k) == plate
  {
    forall plate | plate in PlateFormats
      ensures exists k: PlateIndex :: PickPlate(k) == plate
    {
      var k :| 0 <= k < |PlateFormats| && PlateFormats[k] == plate;
      assert PickPlate(k) == plate;
    }
  }
}
