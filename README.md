# Helmet and plate detection demo: the detection workflow

This project models the page logic of a browser demo that pretends to detect
motorcycles, riders, helmets and licence plates (`detection/index.js`). No
image is ever inspected. The user picks a sample image or uploads a file, then
presses up to three buttons:

- **detect** runs the `objects` operation;
- **detect helmet** runs the `helmet` operation;
- **extract plate** runs the `plate` operation.

Each press plays a fixed table of progress steps. The last step writes an
outcome that depends only on the selected image's tag. Two outcomes are
random: the helmet verdict for any tag other than `with-helmet` and
`no-helmet` (an upload, or a sample without a `data-type`), and which plate
string is shown.

The model is in four modules:

- `Sequencer` (`sequencer.dfy`): the three step tables and the seven plate
  strings.
- `UploadCheck` (`upload.dfy`): the two checks a chosen file must pass, a type
  check and a size check.
- `Detection` (`detection.dfy`): the page state as a value (`Snapshot`). It has
  one function per handler and per timer callback. It also treats the page as a
  sequence of events (sample picked, file chosen, button clicked, callback
  fired) and proves what holds over every such sequence.
- `Page` (`page.dfy`): the page's global state as a class, `Session`. Its
  methods update the fields one at a time, as the script does. Each method is
  proved to produce exactly the snapshot that the matching `Detection` function
  describes.

Choices made in the model:

- **Randomness is an input.** The helmet branch's `Math.random() > 0.5` is a
  `coin: bool`. The plate branch's `Math.floor(Math.random() * 7)` is a
  `PlateIndex`, an integer in `[0, 7)`.
- **Timers are steps.** A callback scheduled with `setTimeout(…, index * 1000)`
  is one step. `FireScheduledSteps` and `SimulateDetection` fire a run's steps
  in index order.
- **Callbacks may fire at any time.** In the event model a callback can fire at
  any point, even after a new selection. This covers callbacks left over from an
  earlier run, which the page does not cancel.
- **`currentMedia` is a string.** The empty string stands for `null`, since the
  page only tests `currentMedia` for truthiness.
- **`currentImageType` is an `Option<string>`.** A sample's `data-type`
  attribute may be missing, which gives `None`.

## Model

| member | source | states |
|---|---|---|
| `Sequencer.StepsOf` | detection/index.js:195-227 | objects has 6 steps, helmet 4, plate 5; exactly the unrecognised operation has none |
| `Sequencer.StepTablesRiseToFull` | detection/index.js:197-227 | every table's progress is strictly increasing, stays within 1..100 and ends at 100 |
| `Sequencer.PickPlate` | detection/index.js:307-311 | the plate picked for any index in [0,7) is one of the seven listed formats |
| `Sequencer.PickPlateIsBijective` | detection/index.js:307-311 | the list has seven distinct entries, each reachable from exactly one index, so a uniform index gives a uniform plate |
| `UploadCheck.Occurs` | detection/index.js:47 | the substring search standing for `match('image.*')` and `match('video.*')`; its meaning is given by `OccursIffSomePosition` |
| `UploadCheck.Validate` | detection/index.js:46-56 | the two upload checks, type first and then size; their meaning is given by `ValidateMeaning` |
| `UploadCheck.OccursIffSomePosition` | detection/index.js:47 | the search used for the type test succeeds exactly when the pattern occurs at some position of the type string, as a regular-expression search for `image.*` or `video.*` does |
| `UploadCheck.AbsentLetterMeansNoOccurrence` | detection/index.js:47 | a pattern containing a letter that the type lacks is never found |
| `UploadCheck.ValidateMeaning` | detection/index.js:46-56 | a file is accepted exactly when its type contains `image` or `video` somewhere and its size is at most 10485760; it is refused for type exactly when neither word occurs; it is refused for size exactly when the type passes and the size exceeds 10485760 |
| `UploadCheck.SizeLimitIsInclusive` | detection/index.js:52-56 | a file of exactly 10 MiB is accepted and one byte more is refused |
| `UploadCheck.TypeTestSearchesAnywhere` | detection/index.js:47-50 | a type that mentions `image` after a prefix still passes |
| `UploadCheck.TypeRefusalWinsOverSize` | detection/index.js:46-56 | `text/plain` and the empty type are refused for type, whatever the size |
| `Detection.AfterReset` | detection/index.js:134-161 | `resetDetectionState`; its meaning is given by `ResetMeaning` and `ResetIsCoherent` |
| `Detection.AfterSample` | detection/index.js:87-108 | a sample pick; its meaning is given by `SampleMeaning` and `SelectionForgetsHistory` |
| `Detection.AfterUpload` | detection/index.js:42-84 | a file choice with its `onload`; its meaning is given by `UploadMeaning` and `SelectionForgetsHistory` |
| `Detection.AfterStart` | detection/index.js:194-230 | the synchronous part of `simulateDetection`; its meaning is given by `StartMeaning` and `StartKeepsCoherent` |
| `Detection.Outcome` | detection/index.js:240-321 | the final-step outcome of each operation; its meaning is given by `ObjectsOutcome`, `HelmetOutcome`, `PlateOutcome` and `OutcomeKeepsCoherent` |
| `Detection.AfterStep` | detection/index.js:233-324 | one step callback; its meaning is given by `EarlyStepMeaning`, the three outcome lemmas and `StepKeepsCoherent` |
| `Detection.RunSteps` | detection/index.js:233-324 | the first n callbacks of a run in index order; its meaning is given by `RunBeforeLastStep` and `TimersRunSteps` |
| `Detection.Simulated` | detection/index.js:194-325 | a whole `simulateDetection` call; its meaning is given by `SimulatedMeaning` and `ClickThenTimers` |
| `Detection.Apply` | detection/index.js:42-325 | one page event: sample pick, file choice, button click or callback; its meaning is given by `ApplyKeepsCoherent` and `ClicksAreGated` |
| `Detection.Run` | detection/index.js:42-325 | a sequence of page events; its meaning is given by `RunKeepsCoherent` and `DetectStaysDisabled` |
| `Detection.ResetMeaning` | detection/index.js:134-161 | reset clears the four flags, disables the helmet and plate buttons and sets progress to 0; it keeps the media, the tag and the detect button; doing it twice is the same as doing it once |
| `Detection.SelectionForgetsHistory` | detection/index.js:60-107 | after a sample pick or an accepted upload, the state is the same whatever it was before |
| `Detection.SampleMeaning` | detection/index.js:87-108 | a sample pick stores the source and the `data-type` tag, leaves a reset state and enables the detect button |
| `Detection.UploadMeaning` | detection/index.js:42-84 | an accepted file is stored with the tag `uploaded`, leaves a reset state and enables the detect button; no file, or a refused file, changes nothing |
| `Detection.StartMeaning` | detection/index.js:194-230 | starting an operation disables that operation's own button and sets progress to 0; nothing else changes, and an unrecognised operation only resets progress |
| `Detection.EarlyStepMeaning` | detection/index.js:233-240 | a step other than the last sets the progress and status line to that step's values and changes nothing else |
| `Detection.ObjectsOutcome` | detection/index.js:240-256 | the last objects step sets bike detected; person detected exactly when the tag is not `no-rider`; the helmet button enabled exactly when a person is detected; the other flags and buttons unchanged; progress 100 |
| `Detection.HelmetOutcome` | detection/index.js:257-291 | for `with-helmet`: helmet detected and COMPLIANT; for `no-helmet`: not detected and VIOLATION; for any other tag: the coin decides; in every case the badge agrees with the flag, the plate button is enabled and only `helmetDetected` changes among the flags |
| `Detection.PlateOutcome` | detection/index.js:292-320 | for `no-rider`: not extracted, FAILED, `0%`, `Not Found`; otherwise: extracted, SUCCESS, the plate is `formats[index]` and is shown on the plate display; only `plateExtracted` changes among the flags and no button changes |
| `Detection.RunBeforeLastStep` | detection/index.js:233-240 | after the first n steps of a run, with n short of the last, only progress and status have changed, to step n's values |
| `Detection.SimulatedMeaning` | detection/index.js:194-325 | a whole run equals the start followed by the outcome, with progress 100 and the last step's text; an unrecognised operation only resets progress |
| `Detection.ResetIsCoherent` | detection/index.js:134-161 | reset establishes the gating and consistency invariant `Coherent` |
| `Detection.StartKeepsCoherent` | detection/index.js:194-230 | starting an operation preserves `Coherent` |
| `Detection.StepKeepsCoherent` | detection/index.js:233-324 | every step callback preserves `Coherent` |
| `Detection.OutcomeKeepsCoherent` | detection/index.js:240-321 | every final-step outcome preserves `Coherent` |
| `Detection.ApplyKeepsCoherent` | detection/index.js:42-325 | every event preserves `Coherent`: the helmet button is enabled only once a person is detected, the plate button only once a helmet verdict is shown, and each flag matches the text that reports it |
| `Detection.RunKeepsCoherent` | detection/index.js:42-325 | `Coherent` holds after any sequence of events, including callbacks that fire late |
| `Detection.ClicksAreGated` | detection/index.js:176-191 | the detect click does nothing while no media is selected; a helmet click has an effect only once a person is detected; a plate click only once a helmet verdict is shown |
| `Detection.DetectStaysDisabled` | detection/index.js:207 | once disabled, the detect button stays disabled through any events that put no new media on the page; cancelled and refused uploads leave it disabled |
| `Detection.TimersRunSteps` | detection/index.js:233-324 | firing the first n callbacks in index order is the same as applying the first n steps |
| `Detection.ClickThenTimers` | detection/index.js:177-324 | a click on an enabled button, followed by all of its callbacks, is one whole run |
| `Detection.StaleCallbackReachesNewSelection` | detection/index.js:233-256 | a callback left over from an earlier objects run applies its outcome to a newly picked sample and enables the helmet button |
| `Detection.StaleHelmetCallbackUnlocksPlate` | detection/index.js:233-301 | a callback left over from an earlier helmet run enables the plate button for a newly picked `no-rider` sample, and a plate click then ends in FAILED at `0%` |
| `Detection.InitialIsCoherent` | detection/index.js:25-33 | the initial state is coherent, and no click changes it |
| `Detection.NoHelmetScenario` | detection/index.js:177-291 | `no-helmet` sample, then detect, then the helmet check: bike and person found, no helmet, VIOLATION shown, plate button enabled |
| `Detection.NoRiderScenario` | detection/index.js:177-320 | `no-rider` sample, then detect: bike only; helmet and plate clicks do nothing; a plate run started directly reports FAILED at `0%` |
| `Detection.WithHelmetScenario` | detection/index.js:177-320 | `with-helmet` sample through all three operations: all four flags set, COMPLIANT, SUCCESS, a listed plate, progress 100 |
| `Page.Session.constructor` | detection/index.js:25-33 | a new session has no media, no tag and cleared flags |
| `Page.Session.ResetDetectionState` | detection/index.js:134-161 | the fields become the reset snapshot of the old ones, keeping media and tag |
| `Page.Session.SelectSample` | detection/index.js:87-108 | the fields become the snapshot of a sample pick; the detect button is enabled |
| `Page.Session.HandleFileSelect` | detection/index.js:42-84 | returns the validation verdict; a refused or missing file leaves every field unchanged; an accepted file gives the snapshot of an upload tagged `uploaded` |
| `Page.Session.Start` | detection/index.js:194-230 | the fields become the start snapshot: the operation's own button is disabled and progress is 0 |
| `Page.Session.ClickButton` | detection/index.js:176-191 | reports whether a run started, which happens exactly when the button is enabled and, for detect, media is selected; a refused click changes nothing |
| `Page.Session.CompleteStep` | detection/index.js:233-240 | one callback: the fields become the snapshot of that step |
| `Page.Session.ShowStep` | detection/index.js:235-236 | a callback first moves the bar and the status line to its step and changes nothing else |
| `Page.Session.FinishObjects` | detection/index.js:241-256 | the objects outcome, applied field by field |
| `Page.Session.FinishHelmet` | detection/index.js:257-291 | the helmet outcome, applied field by field |
| `Page.Session.FinishPlate` | detection/index.js:292-320 | the plate outcome, applied field by field |
| `Page.Session.FireScheduledSteps` | detection/index.js:233-324 | all callbacks of a run, fired in index order, give the run's snapshot and preserve `Coherent` |
| `Page.Session.SimulateDetection` | detection/index.js:194-325 | a whole `simulateDetection` call: progress ends at 100; an unrecognised operation only resets progress |
| `Page.PressAndWait` | detection/index.js:185-324 | clicking an enabled button and letting every scheduled callback fire gives exactly that operation's whole run |
| `Page.WithHelmetSession` | detection/index.js:177-320 | driving a fresh session through a `with-helmet` sample and the three buttons ends with all flags set, COMPLIANT, SUCCESS and a listed plate |

Two consequences of the code that are easy to miss:

- **A `no-rider` plate run is normally unreachable from the page.** Only the
  helmet step's outcome enables the plate button. For a `no-rider` sample with
  no leftover callbacks, the helmet button stays disabled, so the plate button
  does too, and a plate click has no effect (`Detection.NoRiderScenario`).
  The page does not cancel callbacks, though. The last callback of a helmet run
  started on an earlier sample still enables the plate button after a
  `no-rider` sample is picked, and a plate run then fails at `0%`
  (`Detection.StaleHelmetCallbackUnlocksPlate`).
- **The type test is a search.** The code looks for `image` or `video`
  anywhere in the type, so a type such as `application/x-image-archive` passes
  (`UploadCheck.TypeTestSearchesAnywhere`).

## Left out

- Markup and styling are not modelled: element lookups, the preview markup,
  CSS class names, the active sample highlight, clearing the file input, and
  drag-and-drop styling. A drop calls `handleFileSelect` with the dropped file,
  and that call is covered by `HandleFileSelect`.
- The initial page markup is not part of this model. The constructor and
  `Detection.Initial` assume all three buttons start disabled and the result
  fields start at their reset text. The scenarios start from an arbitrary state,
  so they do not depend on this assumption.
- `FileReader` runs asynchronously in the page. The model treats a valid upload
  as one atomic step, and the data URL the reader produces is a parameter.
- Real time is not modelled: the 1000 ms spacing between steps, and how
  callbacks from two runs interleave in real time. Callbacks are steps and may
  fire at any point in the event model.
- `Math.random` is not modelled. It is called three times. The helmet coin
  (detection/index.js:275) and the plate index (311) become the `coin` and
  `PlateIndex` inputs; the confidence reading (317) is covered below. The
  model therefore states no probabilities: that `Math.random() > 0.5` is very
  slightly below one half is not captured.
- The confidence reading of a successful extraction,
  `(92 + Math.random() * 6).toFixed(1)`, is floating-point text. The model
  records only that a reading is displayed (`Reading`), so it cannot state the
  92–98 range. `toFixed` rounding can also print `98.0`.
- The activity log (`addLogEntry`, with clock timestamps), `init`, and the
  `alert` dialogs are I/O and are not modelled. An alert appears in the model
  only as "refused, state unchanged".
- `FileInfo` carries the file name, but only the activity log reads it, and
  the log is not modelled. The logged size text is not modelled either.
