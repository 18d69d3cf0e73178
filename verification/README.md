# Camera calibration: capture session and results serialisers

This project models the core of a browser camera-calibration tool. The operator holds a
ChArUco board in front of the webcam. Each capture keeps one screenshot, together with the
board corners and ids found in it. After every kept picture the tool re-solves the camera
calibration. When the operator finishes, the results screen shows the result; its download
button writes it as the text file `resultados.txt` and packs it with the pictures into an
archive.

The model has two parts.

- **The capture session** (`src/MainScreen.jsx`). It becomes pure transitions on one
  immutable `CaptureSession.Session` record. The record holds:
  - the armed flag (`saveImgRef`) and the `calibrating` flag;
  - three parallel sample stacks: corners, ids and screenshots;
  - the displayed picture list, kept apart from the screenshot stack;
  - the optional image size;
  - the five result fields;
  - the rollback snapshot (`prevState`).

  The transitions are the library load, start, webcam ready, capture plus its arming
  effect, one detection tick, the calibration outcome, rollback, dismissing a dialog, reset,
  cancel and finish. Every vision-library call is an input: a tick receives what marker
  detection and corner interpolation found, and a calibration receives the solve's outcome.
  The code evidently means a rejected solve to drop the sample that caused it: `capture`
  saves the snapshot before the screen is armed (src/MainScreen.jsx:211-220), and the
  rejection dialog tells the operator that the last picture was not detected correctly
  (src/MainScreen.jsx:295-297). The guard that decides the pop (src/MainScreen.jsx:314) does
  not achieve that (see "## Findings"). The model therefore has both calibrations:
  `CalibrateAsWritten` with the guard of the code, and `Calibrate` with the corrected guard.
  The event model takes the guard as a parameter.
  `SessionProperties` gathers the operations into an event model (`Event`, `Apply`, `Run`)
  and proves an invariant of every reachable session. It also proves the rollback
  guarantee, the accumulation of accepted samples, and the defect of the guard as written.
- **The results serialisers** (`src/ResultsScreen.jsx`).
  - `Transcript` models `getVecsCalibrationData` and `getCalibrationData` as written. Each
    is proved equal to an independent layout: rows joined by separators inside brackets,
    and the present sections in a fixed order.
  - `Archive` models `downloadData`'s payload extraction and file naming.

  The way JavaScript prints a number is the function parameter `show`, so no floating
  point is involved. An array entry read past the end prints as `undefined`, as in
  JavaScript.

Supporting modules:
- `Wrappers` provides `Option`.
- `Strings` provides join, concatenation, `indexOf` and decimal printing of indices.
- `Calibration` provides the result fields and the results handed between the screens.

Simplifications of the state:
- The `calibrating` state and `calibratingRef` are always written together, so the model
  has one flag.
- The loaded flag, the dictionary and the board are set together and cleared together,
  so they are one optional `Engine`.

## Model

| member | source | states |
|---|---|---|
| CaptureSession.LoadEngine | src/MainScreen.jsx:81-88 | Loading builds the 4x4 dictionary of 50 markers and the 5 x 7 board with 0.04 squares and 0.02 markers; nothing else changes |
| CaptureSession.StartCapture | src/MainScreen.jsx:184-186 | Start turns capturing on and changes nothing else |
| CaptureSession.WebcamReady | src/MainScreen.jsx:402 | The webcam's media callback marks the webcam ready and changes nothing else |
| CaptureSession.Arm | src/MainScreen.jsx:208-227 | Capture plus its effect leaves the screen calibrating and armed. The snapshot equals the displayed list, image size and five result fields from before the click. The stacks, the displayed list and the results do not change |
| CaptureSession.Dismiss | src/MainScreen.jsx:94-97 | Dismissing the board-not-found dialog (and, identically, the rejected-calibration dialog at 298-301) ends the round (calibrating false) and changes nothing else |
| CaptureSession.Tick | src/MainScreen.jsx:103-163 | No screenshot: nothing changes. A tick that reaches the end of its try block disarms. A tick while not armed changes nothing else. Armed with corners: pushes exactly one entry onto each stack, copies the screenshot stack into the displayed list, sets the image size only if it was absent, and changes nothing else. Armed without corners: stacks unchanged; board-not-found is raised iff markers were found, or no markers and calibrating. An exception changes nothing and opens the capture-error dialog unless it is the canvas message, which opens none. Calibrating, the results and the snapshot never change |
| CaptureSession.RollbackAsWritten | src/MainScreen.jsx:306-319 | Restores the displayed list, image size and five fields from the snapshot. Pops every stack exactly when the displayed list before the restore is shorter than the screenshot stack; otherwise the stacks are unchanged |
| CaptureSession.Rollback | src/MainScreen.jsx:306-319 | The same restore, popping exactly when the snapshot's list is shorter than the screenshot stack (the corrected guard) |
| CaptureSession.Calibrate | src/MainScreen.jsx:263-304 | With the corrected guard: a solution stores all five fields and clears calibrating, and nothing else changes. A rejected solve applies the corrected rollback and opens the error dialog |
| CaptureSession.CalibrateAsWritten | src/MainScreen.jsx:263-304 | As written: a solution acts as in the corrected version. A rejected solve applies the rollback with the guard of line 314 and opens the error dialog. Either way, aligned stacks stay aligned |
| CaptureSession.ShouldCalibrate | src/MainScreen.jsx:178-182 | Defines when the calibration effect fires: an image size is set and the displayed list is nonempty (its consequence is `SessionProperties.CalibrationHasSnapshot`) |
| CaptureSession.FinishDisabled | src/MainScreen.jsx:352-354 | Defines the finish button as disabled iff the displayed list is empty (related to the stacks by `SessionProperties.FinishDisabledIffNoSample`) |
| CaptureSession.Reset | src/MainScreen.jsx:41-66 | Clean-up empties all stacks and the displayed list, clears every flag and the image size, and sets the error to 0 and the other fields to null. The library is kept iff it is a cancel |
| CaptureSession.Cancel | src/MainScreen.jsx:188-204 | A denied cancel leaves the session unchanged; a confirmed one is the clean-up that keeps the library |
| CaptureSession.Finish | src/MainScreen.jsx:229-249 | Finish hands exactly the five fields and the displayed list to the results screen, then cleans up, library included. The handed list is nonempty iff the finish button is enabled |
| SessionProperties.ResetEstablishesInv | src/MainScreen.jsx:63-65 | The fresh screen and every clean-up satisfy the session invariant (aligned stacks, displayed list equal to the screenshot stack, a consistent snapshot) |
| SessionProperties.StepPreservesInv | src/MainScreen.jsx:126-128 | With the corrected rollback, every enabled event keeps the invariant: the three stacks are pushed together, popped together and cleared together, and the displayed list stays the screenshot stack |
| SessionProperties.RollbackPreservesInv | src/MainScreen.jsx:315-317 | With a picture displayed, the corrected rollback leaves the screenshot stack equal to the snapshot's list and keeps the invariant |
| SessionProperties.RunPreservesInv | src/MainScreen.jsx:126-128 | With the corrected rollback, any sequence of enabled events from an invariant session ends in an invariant session |
| SessionProperties.ReachableDisplaysStack | src/MainScreen.jsx:129 | With the corrected rollback, every session reachable from a fresh screen displays exactly its screenshot stack |
| SessionProperties.StepKeepsStacksAligned | src/MainScreen.jsx:315-317 | Under the guard as written and under the corrected one, every enabled event keeps the three stacks the same length |
| SessionProperties.RunKeepsStacksAligned | src/MainScreen.jsx:63-65 | Under either guard, any sequence of enabled events from aligned stacks ends with aligned stacks |
| SessionProperties.ReachableStacksAligned | src/MainScreen.jsx:126-128 | For the program as written and the corrected one alike, every session reachable from a fresh screen has three stacks of equal length |
| SessionProperties.StepKeepsHasSnap | src/MainScreen.jsx:208-220 | Under either guard, every enabled event keeps a snapshot in any session that is armed or has kept or displays a sample: only `capture` arms, and it saves the snapshot first |
| SessionProperties.RunKeepsHasSnap | src/MainScreen.jsx:208-220 | Under either guard, any run of enabled events keeps that snapshot property |
| SessionProperties.ReachableCalibrationHasSnapshot | src/MainScreen.jsx:178-182 | For the program as written and the corrected one, whenever the calibration effect fires in a session reachable from a fresh screen, a snapshot exists |
| SessionProperties.CalibrationHasSnapshot | src/MainScreen.jsx:178-182 | Whenever the calibration effect fires (image size set, a picture displayed), the invariant guarantees a snapshot to roll back to |
| SessionProperties.FinishDisabledIffNoSample | src/MainScreen.jsx:352-354 | Under the invariant, finish is disabled exactly when no sample has been kept |
| SessionProperties.ArmIdempotent | src/MainScreen.jsx:208-227 | Pressing capture again while armed keeps the flags set and only retakes the same snapshot |
| SessionProperties.CancelDenied | src/MainScreen.jsx:50-65 | A denied cancel (lines 199-203) changes nothing; a confirmed one keeps the library and, through the clean-up, empties the three stacks and the displayed list |
| SessionProperties.RejectedSampleRollsBack | src/MainScreen.jsx:290-300 | Capture, a kept sample and a rejected solve leave the stacks, displayed list, image size and fields exactly as before the capture; dismissing the dialog ends the round disarmed, with the invariant kept |
| SessionProperties.AcceptCycleEffect | src/MainScreen.jsx:283-289 | Capture, a kept sample and a successful solve add one entry to each stack, show the stack, and install the solution's fields |
| SessionProperties.CyclesAccumulate | src/MainScreen.jsx:123-129 | N accepted samples add exactly their N pictures, corners and ids to the stacks in capture order, keep the library and the invariant, and leave the last solution's fields |
| SessionProperties.HandoffCarriesAcceptedPictures | src/MainScreen.jsx:240-249 | From a freshly loaded screen, N ≥ 1 accepted samples enable finish, which hands exactly those N pictures in order together with the last solution |
| SessionProperties.AsWrittenKeepsRejectedSample | src/MainScreen.jsx:314 | Under the guard as written, a rejected sample stays on every stack while the displayed list drops it, so the invariant breaks |
| SessionProperties.AsWrittenRunLeavesRejectedSample | src/MainScreen.jsx:314 | The same events (load, capture, a tick keeping picture A, a rejected solve) leave A on the screenshot stack with an empty displayed list as written, and both empty with the corrected guard |
| SessionProperties.RunFour | src/MainScreen.jsx:290-291 | The four-event run from a fresh screen ends in the rollback of the session that kept the sample, under the chosen guard |
| SessionProperties.AsWrittenRejectedPictureReappears | src/MainScreen.jsx:314-317 | Concrete run: the first sample is rejected, the next is accepted, and the displayed list shows both pictures with two corner sets on the stack |
| Strings.IndexOf | src/ResultsScreen.jsx:149 | `indexOf`: -1 iff the pattern occurs nowhere; otherwise an occurrence with none before it |
| Strings.DecimalInjective | src/ResultsScreen.jsx:151 | Different indices print as different decimal numerals |
| Transcript.VecsData | src/ResultsScreen.jsx:94-106 | `getVecsCalibrationData` as written: each vector's piece appended in index order (its meaning is `Transcript.VecsDataIsLayout`) |
| Transcript.VecsDataIsLayout | src/ResultsScreen.jsx:94-106 | The as-written accumulation equals the independent layout for every length: the rows `[ a , b , c ]` in input order, joined by ` ,\n `, inside one more pair of brackets, and nothing for an empty list |
| Transcript.VecsDataSmall | src/ResultsScreen.jsx:95-98 | An empty list prints nothing; one vector prints exactly `[ [ a , b , c ] ]` |
| Transcript.PieceShapes | src/ResultsScreen.jsx:99-103 | For two or more vectors the first piece opens with `[ [ `. A piece ends with ` ] ,\n ` iff it is not the last, and the last ends with ` ] ]` |
| Transcript.VecsDataUsesFirstThree | src/ResultsScreen.jsx:97-103 | Lists that agree on components 0, 1 and 2 of every vector print identically |
| Transcript.MatrixText | src/ResultsScreen.jsx:115-118 | The camera matrix text as written: entries 0 to 8 (its meaning is `Transcript.MatrixLayout`) |
| Transcript.DistortionText | src/ResultsScreen.jsx:120-126 | The distortion text as written: entries 0 to 4 (its meaning is `Transcript.DistortionLayout`) |
| Transcript.MatrixLayout | src/ResultsScreen.jsx:115-118 | The matrix text is three bracketed rows; row r holds entries 3r, 3r+1 and 3r+2 joined by ` , `, and the rows are joined by ` ,\n ` |
| Transcript.DistortionLayout | src/ResultsScreen.jsx:120-126 | The distortion text is entries 0 to 4 joined by ` ,\n ` inside one pair of brackets |
| Transcript.OnlyLeadingEntriesPrinted | src/ResultsScreen.jsx:115-126 | Matrices that agree on entries 0 to 8, and distortion arrays that agree on entries 0 to 4, print identically |
| Transcript.SectionsPresentInOrder | src/ResultsScreen.jsx:110-134 | A section appears iff its field is truthy, in the fixed order error, matrix, distortion, rotation, translation; an error of 0 omits the error section |
| Transcript.SectionEndings | src/ResultsScreen.jsx:111-134 | Every section but translation ends with a blank line; translation ends with its vectors |
| Transcript.CalibrationData | src/ResultsScreen.jsx:108-137 | `getCalibrationData` as written: five guarded appends (its meaning is `Transcript.CalibrationDataIsLayout`) |
| Transcript.CalibrationDataIsLayout | src/ResultsScreen.jsx:108-137 | The five guarded appends as written equal the concatenation of the rendered present sections in order |
| Archive.Payload | src/ResultsScreen.jsx:149-150 | With a `base64,` marker: the text after its first occurrence, so the picture is its prefix, the marker and the payload. Without one: the text from index 6 on, empty for pictures shorter than 6 characters |
| Archive.PayloadOfDataUrl | src/ResultsScreen.jsx:149-150 | For a media type without commas, extracting the payload of `data:<mime>;base64,<payload>` gives back exactly the payload |
| Archive.Files | src/ResultsScreen.jsx:144-152 | The archive holds `resultados.txt` with the transcript, then one base64 file per picture, in list order, named by its index |
| Archive.FileName | src/ResultsScreen.jsx:151 | Defines the name of the picture at index i: `fotografia-`, then i in decimal, then `.png` (its meaning is `Archive.FileNamesDistinct`) |
| Archive.FileNamesDistinct | src/ResultsScreen.jsx:151 | `fotografia-<index>.png` names differ for different indices |
| Archive.PathsDistinct | src/ResultsScreen.jsx:146-151 | No two files of the archive share a path |

## Left out

- The vision library's calls (`imread`, `detectMarkers`, `interpolateCornersCharuco`, `drawDetectedCornersCharuco`, `calibrateCameraCharuco`, `imshow`, `board.draw`, `flip`) are foreign code. Detection and solve outcomes are inputs, and corners and ids are opaque values.
- The `requestAnimationFrame` loop, the load polling (`waitForArucoToLoad`, `sleep`) and `getScreenshot` are scheduling and I/O. One tick is one atomic call that receives its frame.
- CaptureSession.Tick: an exception is modelled as "session unchanged". An exception thrown after the push or after the size was set leaves those partial effects in the browser; the model does not track them.
- CaptureSession.Tick: the image size guard reads `imageSize` from the closure the loop was created in. The model reads the current value ("set when absent"). React closure capture, batching and effect timing are not modelled.
- CaptureSession.Rollback and CaptureSession.RollbackAsWritten require a snapshot. The initial `prevState` is an empty object, which the model does not represent. `SessionProperties.ReachableCalibrationHasSnapshot` shows, for the guard as written and the corrected one, that every session reachable from a fresh screen in which the calibration effect fires has one (through `SessionProperties.HasSnap`, kept by `SessionProperties.StepKeepsHasSnap` and `SessionProperties.RunKeepsHasSnap`), so requiring it excludes no reachable run.
- CaptureSession.Calibrate: a solve that returns fewer rotation or translation vectors than samples is not ruled out. That alignment is the solver's promise.
- The event `DialogDismissed` stands for dismissing the board-not-found or the rejected-calibration dialog. The capture-error dialog has no `.then`; dismissing it changes nothing, so it has no event.
- The dialogs are kept only as the notice a transition opens and their `.then` effects (`Dismiss`, `Cancel`, `Finish`). Their texts and markup, `showInstructions` and `downloadCharucoBoard` are UI.
- Rendering on screen (`displayVecs`, `displayCameraMatrix`, `displayDistCoeffs`, `displayDataCard` and the JSX) is presentation; the same layouts are modelled through the transcript.
- How JavaScript turns a number into text is the parameter `show`. Truthiness of the error is modelled as "not 0", so a NaN error is not represented.
- The `dateAux` timestamp in the snapshot and the timestamped archive name are clock readings. The zip library and `saveAs` are I/O, so the archive is modelled as a list of file entries.
- Archive.Files: the directory entry `fotografias/` that `zip.folder` adds (src/ResultsScreen.jsx:147) is not listed; only the files are, and each picture's path carries the `fotografias/` prefix.
- Archive.Payload: a picture without the marker is modelled as written (the text from index 6 on). This cannot arise for webcam screenshots, which are always base64 data URLs.
- The image files are named `.png` although the webcam hands out JPEG data. This is kept as written.
- `src/App.jsx` only switches between the two screens and is not part of this model.

## Findings

| source | as written | input that shows it | evidently intended | confidence | as-written member | corrected member |
|---|---|---|---|---|---|---|
| src/MainScreen.jsx:314 | Rollback pops the sample stacks when the displayed list is shorter than the screenshot stack. The tick that kept the sample copied the stack into the displayed list, so the two lengths are equal and a rejected sample is never popped | Fresh session; capture; a tick keeps picture A; the solve rejects it. The stacks still hold A while the displayed list is empty. After the next accepted capture of B, the list shows A and B and the solve receives both corner sets | Pop exactly when a sample was kept after the snapshot, that is, when the snapshot's list is shorter than the screenshot stack | high that the guard as written cannot fire right after a push; not executed. In the browser the restored list can re-trigger the calibration effect and a second solve, which may then pop; this needs a snapshot with a size and a picture | CaptureSession.RollbackAsWritten, CaptureSession.CalibrateAsWritten, SessionProperties.AsWrittenKeepsRejectedSample, SessionProperties.AsWrittenRejectedPictureReappears, SessionProperties.AsWrittenRunLeavesRejectedSample | CaptureSession.Rollback, SessionProperties.RejectedSampleRollsBack |
