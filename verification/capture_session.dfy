/**
 * The capture screen's session logic as pure transitions on one record.
 *
 * The screen keeps an "armed" flag that makes the next detection tick keep
 * its picture, a `calibrating` flag shown as a busy overlay, three parallel
 * sample stacks (ChArUco corners, ChArUco ids and screenshots), a displayed
 * picture list kept separately from the screenshot stack, the frame size of
 * the first kept picture, the calibration result fields, and a snapshot taken
 * each time the operator asks for a capture.
 *
 * Every vision-library call is an input here: a tick receives the outcome of
 * marker detection and corner interpolation, a calibration receives the outcome
 * of the solve.
 */
module CaptureSession {
  import opened Wrappers
  import opened Calibration

  /** A screenshot, as the data URL the webcam hands out. */
  type Picture = string

  /** Frame size in pixels. */
  datatype Size = Size(width: nat, height: nat)

  /** Interpolated ChArUco corners and their ids; opaque to the session. */
  datatype CornerSet = CornerSet(points: seq<(real, real)>)
  datatype IdSet = IdSet(ids: seq<int>)

  /** The marker dictionary and board built once the vision library has loaded. */
  datatype Dictionary = Dict4x4x50
  datatype Board = Board(squaresX: nat, squaresY: nat, squareLength: real, markerLength: real)
  datatype Engine = Engine(dictionary: Dictionary, board: Board)

  /** A 5 x 7 board with 4 cm squares and 2 cm markers, drawn from the 4x4 dictionary of 50 markers. */
  const Standard := Engine(Dict4x4x50, Board(5, 7, 0.04, 0.02))

  /** What `capture` saves for a later rollback. */
  datatype Snapshot = Snapshot(pictures: seq<Picture>, imageSize: Option<Size>, fields: Fields)

  datatype Session = Session(
    engine: Option<Engine>,      // present once the vision library has loaded
    capturing: bool,             // the webcam has been requested
    webcamReady: bool,           // the webcam reported a media stream
    armed: bool,                 // keep the next detected board
    calibrating: bool,           // a capture/calibration round is in progress
    corners: seq<CornerSet>,     // sample stack: corners
    ids: seq<IdSet>,             // sample stack: ids
    shots: seq<Picture>,         // sample stack: screenshots
    pictures: seq<Picture>,      // the displayed list of pictures taken
    imageSize: Option<Size>,
    fields: Fields,
    prev: Option<Snapshot>)      // None is the initial empty snapshot object
  {
    /** The three sample stacks have one entry per kept sample. */
    predicate StacksAligned() {
      |corners| == |shots| && |ids| == |shots|
    }

    /** Everything a snapshot saves. */
    function Snap(): Snapshot {
      Snapshot(pictures, imageSize, fields)
    }
  }

  /** A fresh screen: nothing loaded, nothing taken, an error of 0 and no other result. */
  const Initial := Session(None, false, false, false, false, [], [], [], [], None, NoResult, None)

  /** The user-visible dialogs a transition can open. */
  datatype Notice = Quiet | BoardNotFound | CaptureError | CalibrationRejected

  /** A transition's new session and the dialog it opened. */
  datatype Step = Step(session: Session, notice: Notice)

  /** What marker detection and corner interpolation found in one frame. */
  datatype Detection = NoMarkers | MarkersNoCorners | Corners(corners: CornerSet, ids: IdSet)

  /**
   * What one detection tick sees: no screenshot yet, a decoded screenshot of a
   * given size with its detection outcome, or an exception thrown inside the
   * tick (`canvasNotReady` is the one message that is not reported).
   */
  datatype Frame =
    | NoScreenshot
    | Shot(picture: Picture, size: Size, detection: Detection)
    | Aborted(canvasNotReady: bool)

  /** The solve's outcome: a solution, or an exception. */
  datatype Solve = Solved(solution: Solution) | Rejected

  /** The vision library finished loading: the dictionary and board exist. */
  function LoadEngine(s: Session): (r: Session)
    ensures r.engine == Some(Standard)
    ensures r.(engine := s.engine) == s
  {
    s.(engine := Some(Standard))
  }

  /** The start button: the webcam is requested. */
  function StartCapture(s: Session): (r: Session)
    ensures r.capturing
    ensures r.(capturing := s.capturing) == s
  {
    s.(capturing := true)
  }

  /** The webcam delivered its media stream. */
  function WebcamReady(s: Session): (r: Session)
    ensures r.webcamReady
    ensures r.(webcamReady := s.webcamReady) == s
  {
    s.(webcamReady := true)
  }

  /** The capture button: mark the round as calibrating and save a snapshot. */
  function CaptureClick(s: Session): Session
  {
    s.(calibrating := true, prev := Some(s.Snap()))
  }

  /** The effect that follows every new snapshot: arm the screen, but only while calibrating. */
  function ArmEffect(s: Session): Session
  {
    if s.calibrating then s.(armed := true) else s
  }

  /**
   * `capture` followed by its arming effect. The snapshot holds the displayed
   * list, the image size and the five result fields as they were before the
   * click; nothing else but the two flags changes.
   */
  function Arm(s: Session): (r: Session)
    ensures r.calibrating && r.armed
    ensures r.prev == Some(Snapshot(s.pictures, s.imageSize, s.fields))
    ensures r.(armed := s.armed, calibrating := s.calibrating, prev := s.prev) == s
  {
    ArmEffect(CaptureClick(s))
  }

  /**
   * The `.then` of the board-not-found dialog and of the rejected-calibration
   * dialog: the round is over. The capture-error dialog has no `.then`, so
   * dismissing it changes nothing and is not this transition.
   */
  function Dismiss(s: Session): (r: Session)
    ensures !r.calibrating
    ensures r.(calibrating := s.calibrating) == s
  {
    s.(calibrating := false)
  }

  /**
   * One run of `detectCharucoBoard`. A tick that reaches the end of its
   * `try` block disarms the screen. Only an armed tick that finds corners
   * changes the stacks: it pushes one entry onto each, copies the screenshot
   * stack into the displayed list, and records the frame size when none is
   * recorded yet. An armed tick that finds markers but no corners always
   * reports the board as not found; one that finds no markers does so only
   * while calibrating.
   */
  function Tick(s: Session, frame: Frame): (r: Step)
    requires s.engine.Some?
    ensures frame.NoScreenshot? ==> r == Step(s, Quiet)
    ensures frame.Aborted? ==> r.session == s
    ensures frame.Aborted? ==> r.notice == (if frame.canvasNotReady then Quiet else CaptureError)
    ensures frame.Shot? ==> !r.session.armed
    ensures frame.Shot? && !s.armed ==> r == Step(s, Quiet)
    ensures frame.Shot? && s.armed && frame.detection.Corners? ==>
      && r.notice == Quiet
      && r.session.corners == s.corners + [frame.detection.corners]
      && r.session.ids == s.ids + [frame.detection.ids]
      && r.session.shots == s.shots + [frame.picture]
      && r.session.pictures == r.session.shots
      && r.session.imageSize == Some(s.imageSize.GetOr(frame.size))
      && r.session.(corners := s.corners, ids := s.ids, shots := s.shots, pictures := s.pictures,
                    imageSize := s.imageSize, armed := s.armed) == s
    ensures frame.Shot? && s.armed && !frame.detection.Corners? ==>
      && r.session == s.(armed := false)
      && (r.notice == BoardNotFound <==> frame.detection.MarkersNoCorners? || s.calibrating)
      && (r.notice == Quiet <==> !(r.notice == BoardNotFound))
    ensures r.session.calibrating == s.calibrating && r.session.fields == s.fields && r.session.prev == s.prev
  {
    match frame
    case NoScreenshot => Step(s, Quiet)
    case Aborted(canvasNotReady) => Step(s, if canvasNotReady then Quiet else CaptureError)
    case Shot(picture, size, detection) =>
      var kept :=
        if detection.Corners? && s.armed then
          var shots := s.shots + [picture];
          s.(corners := s.corners + [detection.corners],
             ids := s.ids + [detection.ids],
             shots := shots,
             pictures := shots,
             imageSize := if s.imageSize.None? then Some(size) else s.imageSize)
        else s;
      var notice :=
        if detection.MarkersNoCorners? && s.armed then BoardNotFound
        else if detection.NoMarkers? && s.armed && s.calibrating then BoardNotFound
        else Quiet;
      Step(kept.(armed := false), notice)
  }

  /** The effect that starts a calibration: an image size is known and at least one picture is displayed. */
  predicate ShouldCalibrate(s: Session) {
    s.imageSize.Some? && |s.pictures| > 0
  }

  /**
   * `returnToPrevState` as written: restore the displayed list, image size and
   * result fields from the snapshot, and pop each stack when the displayed
   * list (before the restore) is shorter than the screenshot stack.
   */
  function RollbackAsWritten(s: Session): (r: Session)
    requires s.prev.Some?
    ensures r.pictures == s.prev.value.pictures
    ensures r.imageSize == s.prev.value.imageSize && r.fields == s.prev.value.fields
    ensures |s.pictures| < |s.shots| ==>
      r.shots == s.shots[..|s.shots| - 1] && r.corners == DropLast(s.corners) && r.ids == DropLast(s.ids)
    ensures |s.pictures| >= |s.shots| ==> r.shots == s.shots && r.corners == s.corners && r.ids == s.ids
    ensures r.(pictures := s.pictures, imageSize := s.imageSize, fields := s.fields,
               corners := s.corners, ids := s.ids, shots := s.shots) == s
  {
    Restore(s, |s.pictures| < |s.shots|)
  }

  /**
   * Rollback with the decision it is meant to make: pop the newest sample
   * exactly when a sample was kept after the snapshot, that is, when the
   * snapshot's list is shorter than the screenshot stack.
   */
  function Rollback(s: Session): (r: Session)
    requires s.prev.Some?
    ensures r.pictures == s.prev.value.pictures
    ensures r.imageSize == s.prev.value.imageSize && r.fields == s.prev.value.fields
    ensures |s.prev.value.pictures| < |s.shots| ==>
      r.shots == s.shots[..|s.shots| - 1] && r.corners == DropLast(s.corners) && r.ids == DropLast(s.ids)
    ensures |s.prev.value.pictures| >= |s.shots| ==> r.shots == s.shots && r.corners == s.corners && r.ids == s.ids
    ensures r.(pictures := s.pictures, imageSize := s.imageSize, fields := s.fields,
               corners := s.corners, ids := s.ids, shots := s.shots) == s
  {
    Restore(s, |s.prev.value.pictures| < |s.shots|)
  }

  /** Which rollback guard a calibration applies: the one written in the code, or the corrected one. */
  datatype Guard = AsWritten | Corrected

  /** Restores the snapshot and, when `pop` holds, drops the top of each non-empty stack. */
  function Restore(s: Session, pop: bool): Session
    requires s.prev.Some?
  {
    var p := s.prev.value;
    var restored := s.(pictures := p.pictures, imageSize := p.imageSize, fields := p.fields);
    if pop then
      restored.(corners := DropLast(s.corners), ids := DropLast(s.ids), shots := DropLast(s.shots))
    else restored
  }

  /** `Array.prototype.pop`: the last element goes, an empty array stays empty. */
  function DropLast<T>(xs: seq<T>): seq<T>
  {
    if |xs| == 0 then xs else xs[..|xs| - 1]
  }

  /**
   * `calibrateCamera`. A solution replaces all five result fields at once and
   * ends the round; a rejected solve rolls the session back and opens the
   * error dialog, whose dismissal ends the round.
   */
  function Calibrate(s: Session, outcome: Solve): (r: Step)
    requires s.prev.Some?
    ensures outcome.Solved? ==>
      && r.notice == Quiet
      && r.session.fields == outcome.solution.AsFields()
      && !r.session.calibrating
      && r.session.(fields := s.fields, calibrating := s.calibrating) == s
    ensures outcome.Rejected? ==> r == Step(Rollback(s), CalibrationRejected)
  {
    match outcome
    case Solved(solution) => Step(s.(fields := solution.AsFields(), calibrating := false), Quiet)
    case Rejected => Step(Rollback(s), CalibrationRejected)
  }

  /**
   * `calibrateCamera` exactly as written: a rejected solve applies
   * `returnToPrevState` with the guard of the code.
   */
  function CalibrateAsWritten(s: Session, outcome: Solve): (r: Step)
    requires s.prev.Some?
    ensures outcome.Solved? ==> r == Calibrate(s, outcome)
    ensures outcome.Rejected? ==> r == Step(RollbackAsWritten(s), CalibrationRejected)
    ensures s.StacksAligned() ==> r.session.StacksAligned()
  {
    match outcome
    case Solved(_) => Calibrate(s, outcome)
    case Rejected => Step(RollbackAsWritten(s), CalibrationRejected)
  }

  /** The calibration under the chosen guard. */
  function CalibrateWith(g: Guard, s: Session, outcome: Solve): Step
    requires s.prev.Some?
  {
    if g == AsWritten then CalibrateAsWritten(s, outcome) else Calibrate(s, outcome)
  }

  /**
   * `cleanAllVariables`: every stack and the displayed list emptied, every flag
   * and the image size cleared, the error back to 0 and every other result
   * field null. The loaded library survives only a cancel. The snapshot is not
   * part of the clean-up and survives.
   */
  function Reset(s: Session, isCancel: bool): (r: Session)
    ensures r.corners == [] && r.ids == [] && r.shots == [] && r.pictures == []
    ensures !r.armed && !r.calibrating && !r.capturing && !r.webcamReady
    ensures r.imageSize == None && r.fields == NoResult
    ensures r.engine == (if isCancel then s.engine else None)
    ensures r.prev == s.prev
  {
    Initial.(engine := if isCancel then s.engine else None, prev := s.prev)
  }

  /** `cancelCapture`: the confirmation dialog, answered `confirmed`. */
  function Cancel(s: Session, confirmed: bool): (r: Session)
    ensures !confirmed ==> r == s
    ensures confirmed ==> r == Reset(s, true)
  {
    if confirmed then Reset(s, true) else s
  }

  /** The finish button is disabled while no picture is displayed. */
  predicate FinishDisabled(s: Session) {
    |s.pictures| == 0
  }

  /**
   * `finishCapture`, once its dialog is dismissed: hand the result fields and
   * the displayed pictures to the results screen and clean everything up,
   * library included.
   */
  function Finish(s: Session): (r: (Results, Session))
    ensures r.0 == Results(s.fields, s.pictures)
    ensures |r.0.pictures| > 0 <==> !FinishDisabled(s)
    ensures r.1 == Reset(s, false)
  {
    (Results(s.fields, s.pictures), Reset(s, false))
  }
}
