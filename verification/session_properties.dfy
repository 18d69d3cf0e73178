/**
 * Properties of the capture session: the invariant every reachable session
 * keeps, the rollback guarantee, the accumulation of accepted samples, and
 * the defect of the rollback guard as written.
 */
module SessionProperties {
  import opened Wrappers
  import opened Calibration
  import opened CaptureSession
  import Strings

  /**
   * What every session reachable from a fresh screen satisfies: the three
   * sample stacks are aligned, the displayed list is the screenshot stack, an
   * armed screen holds a snapshot of the current stack, and once a sample
   * exists the snapshot holds either the current stack or the stack without
   * its newest sample.
   */
  predicate Inv(s: Session) {
    && s.StacksAligned()
    && s.pictures == s.shots
    && (s.armed ==> s.prev.Some? && s.prev.value.pictures == s.shots)
    && (|s.shots| > 0 ==>
          s.prev.Some? && (s.prev.value.pictures == s.shots || s.prev.value.pictures == s.shots[..|s.shots| - 1]))
  }

  /** One operator action or screen event. */
  datatype Event =
    | LibraryLoaded
    | StartPressed
    | WebcamStarted
    | CapturePressed
    | FrameTick(frame: Frame)
    | SolveFinished(outcome: Solve)
    | DialogDismissed
    | CancelAnswered(confirmed: bool)
    | FinishPressed

  /** When the screen can deliver an event: ticks run once the library is loaded, a solve starts only from its effect, finish needs a picture. */
  predicate Enabled(s: Session, e: Event) {
    match e
    case FrameTick(_) => s.engine.Some?
    case SolveFinished(_) => ShouldCalibrate(s) && s.prev.Some?
    case FinishPressed => !FinishDisabled(s)
    case _ => true
  }

  /** The session after an enabled event, with rejected solves rolled back under guard `g`. */
  function Apply(g: Guard, s: Session, e: Event): Session
    requires Enabled(s, e)
  {
    match e
    case LibraryLoaded => LoadEngine(s)
    case StartPressed => StartCapture(s)
    case WebcamStarted => WebcamReady(s)
    case CapturePressed => Arm(s)
    case FrameTick(frame) => Tick(s, frame).session
    case SolveFinished(outcome) => CalibrateWith(g, s, outcome).session
    case DialogDismissed => Dismiss(s)
    case CancelAnswered(confirmed) => Cancel(s, confirmed)
    case FinishPressed => Finish(s).1
  }

  /** The session after a sequence of events, or None when one of them is not enabled. */
  function Run(g: Guard, s: Session, es: seq<Event>): Option<Session>
    decreases |es|
  {
    if |es| == 0 then Some(s)
    else if Enabled(s, es[0]) then Run(g, Apply(g, s, es[0]), es[1..])
    else None
  }

  /** The fresh screen satisfies the invariant, and so does every reset, from any session. */
  lemma ResetEstablishesInv(s: Session, isCancel: bool)
    ensures Inv(Initial)
    ensures Inv(Reset(s, isCancel))
  {
  }

  /** With the corrected rollback, every enabled event keeps the invariant. */
  lemma StepPreservesInv(s: Session, e: Event)
    requires Inv(s) && Enabled(s, e)
    ensures Inv(Apply(Corrected, s, e))
  {
    if e.SolveFinished? && e.outcome.Rejected? {
      RollbackPreservesInv(s);
    }
  }

  /**
   * With a picture displayed, as every calibration has, the corrected rollback
   * leaves the stacks equal to the snapshot's list.
   */
  lemma RollbackPreservesInv(s: Session)
    requires Inv(s) && s.prev.Some? && |s.pictures| > 0
    ensures Rollback(s).shots == s.prev.value.pictures
    ensures Inv(Rollback(s))
  {
  }

  /** With the corrected rollback, every sequence of enabled events from an invariant session ends in an invariant session. */
  lemma {:induction false} RunPreservesInv(s: Session, es: seq<Event>)
    requires Inv(s)
    ensures Run(Corrected, s, es).Some? ==> Inv(Run(Corrected, s, es).value)
    decreases |es|
  {
    if |es| > 0 && Enabled(s, es[0]) {
      StepPreservesInv(s, es[0]);
      RunPreservesInv(Apply(Corrected, s, es[0]), es[1..]);
    }
  }

  /** With the corrected rollback, every session reachable from a fresh screen displays exactly its screenshot stack. */
  lemma ReachableDisplaysStack(es: seq<Event>)
    ensures Run(Corrected, Initial, es).Some? ==> Run(Corrected, Initial, es).value.pictures == Run(Corrected, Initial, es).value.shots
  {
    ResetEstablishesInv(Initial, false);
    RunPreservesInv(Initial, es);
  }

  /** Under either guard, every enabled event keeps the three stacks the same length. */
  lemma StepKeepsStacksAligned(g: Guard, s: Session, e: Event)
    requires s.StacksAligned() && Enabled(s, e)
    ensures Apply(g, s, e).StacksAligned()
  {
  }

  /** Under either guard, a run of enabled events from aligned stacks ends with aligned stacks. */
  lemma {:induction false} RunKeepsStacksAligned(g: Guard, s: Session, es: seq<Event>)
    requires s.StacksAligned()
    ensures Run(g, s, es).Some? ==> Run(g, s, es).value.StacksAligned()
    decreases |es|
  {
    if |es| > 0 && Enabled(s, es[0]) {
      StepKeepsStacksAligned(g, s, es[0]);
      RunKeepsStacksAligned(g, Apply(g, s, es[0]), es[1..]);
    }
  }

  /**
   * The program as written, and the corrected one alike: every session
   * reachable from a fresh screen has three sample stacks of equal length.
   */
  lemma ReachableStacksAligned(g: Guard, es: seq<Event>)
    ensures Run(g, Initial, es).Some? ==>
      && |Run(g, Initial, es).value.corners| == |Run(g, Initial, es).value.shots|
      && |Run(g, Initial, es).value.ids| == |Run(g, Initial, es).value.shots|
  {
    RunKeepsStacksAligned(g, Initial, es);
  }

  /** Under the invariant, a session whose calibration effect fires always holds a snapshot to roll back to. */
  lemma CalibrationHasSnapshot(s: Session)
    requires Inv(s) && ShouldCalibrate(s)
    ensures s.prev.Some?
  {
  }

  /** A session that is armed, or has kept or displays a sample, holds a snapshot. */
  predicate HasSnap(s: Session) {
    (s.armed || |s.shots| > 0 || |s.pictures| > 0) ==> s.prev.Some?
  }

  /** Under either guard, every enabled event keeps a snapshot wherever one is needed. */
  lemma StepKeepsHasSnap(g: Guard, s: Session, e: Event)
    requires HasSnap(s) && Enabled(s, e)
    ensures HasSnap(Apply(g, s, e))
  {
  }

  /** Under either guard, a run of enabled events keeps a snapshot wherever one is needed. */
  lemma {:induction false} RunKeepsHasSnap(g: Guard, s: Session, es: seq<Event>)
    requires HasSnap(s)
    ensures Run(g, s, es).Some? ==> HasSnap(Run(g, s, es).value)
    decreases |es|
  {
    if |es| > 0 && Enabled(s, es[0]) {
      StepKeepsHasSnap(g, s, es[0]);
      RunKeepsHasSnap(g, Apply(g, s, es[0]), es[1..]);
    }
  }

  /**
   * The program as written, and the corrected one alike: in every session
   * reachable from a fresh screen, the calibration effect only fires when a
   * snapshot exists, so requiring one of a solve excludes no reachable run.
   */
  lemma ReachableCalibrationHasSnapshot(g: Guard, es: seq<Event>)
    ensures Run(g, Initial, es).Some? && ShouldCalibrate(Run(g, Initial, es).value) ==>
      Run(g, Initial, es).value.prev.Some?
  {
    RunKeepsHasSnap(g, Initial, es);
  }

  /** Under the invariant, finish is disabled exactly when no sample has been kept. */
  lemma FinishDisabledIffNoSample(s: Session)
    requires Inv(s)
    ensures FinishDisabled(s) <==> |s.shots| == 0
  {
  }

  /** Pressing capture twice in a row is the same as pressing it once. */
  lemma ArmIdempotent(s: Session)
    ensures Arm(Arm(s)) == Arm(s)
  {
  }

  /** Answering no to the cancel dialog leaves everything as it was; answering yes keeps only the library and the snapshot. */
  lemma CancelDenied(s: Session)
    ensures Cancel(s, false) == s
    ensures Cancel(s, true).engine == s.engine
    ensures Cancel(s, true).corners == [] && Cancel(s, true).ids == []
    ensures Cancel(s, true).shots == [] && Cancel(s, true).pictures == []
  {
  }

  /** One accepted board observation: the screenshot, its size, and the corners found in it. */
  datatype Sample = Sample(picture: Picture, size: Size, corners: CornerSet, ids: IdSet)

  function AsFrame(x: Sample): Frame {
    Shot(x.picture, x.size, Corners(x.corners, x.ids))
  }

  /** Press capture, then let one tick see the board. */
  function ArmAndDetect(s: Session, x: Sample): Session
    requires s.engine.Some?
  {
    Tick(Arm(s), AsFrame(x)).session
  }

  /**
   * The rollback guarantee: pressing capture, keeping a sample and having the
   * solve rejected leaves the stacks, the displayed list, the image size and the
   * result fields exactly as they were before the press, and the dialog's
   * dismissal ends the round.
   */
  lemma RejectedSampleRollsBack(s: Session, x: Sample)
    requires Inv(s) && s.engine.Some?
    ensures ShouldCalibrate(ArmAndDetect(s, x)) && ArmAndDetect(s, x).prev.Some?
    ensures
      var r := Calibrate(ArmAndDetect(s, x), Rejected);
      var t := Dismiss(r.session);
      && r.notice == CalibrationRejected
      && t.corners == s.corners && t.ids == s.ids && t.shots == s.shots
      && t.pictures == s.pictures && t.imageSize == s.imageSize && t.fields == s.fields
      && !t.armed && !t.calibrating && Inv(t)
  {
    var t := ArmAndDetect(s, x);
    assert t.shots[..|t.shots| - 1] == s.shots;
    assert t.corners[..|t.corners| - 1] == s.corners;
    assert t.ids[..|t.ids| - 1] == s.ids;
    RollbackPreservesInv(t);
  }

  /** Accept one sample and have the solve succeed. */
  function AcceptCycle(s: Session, x: Sample, sol: Solution): (r: Session)
    requires s.engine.Some?
  {
    var t := ArmAndDetect(s, x);
    Calibrate(t, Solved(sol)).session
  }

  /** One accepted sample adds one entry to each stack and installs its solution. */
  lemma AcceptCycleEffect(s: Session, x: Sample, sol: Solution)
    requires Inv(s) && s.engine.Some?
    ensures
      var u := AcceptCycle(s, x, sol);
      && u.shots == s.shots + [x.picture]
      && u.corners == s.corners + [x.corners]
      && u.ids == s.ids + [x.ids]
      && u.pictures == u.shots
      && u.engine == s.engine
      && u.fields == sol.AsFields()
      && Inv(u)
  {
  }

  /** A run of accept-and-solve cycles, one solution per sample. */
  function Cycles(s: Session, xs: seq<Sample>, sols: seq<Solution>): Session
    requires s.engine.Some? && |xs| == |sols|
    decreases |xs|
  {
    if |xs| == 0 then s else Cycles(AcceptCycle(s, xs[0], sols[0]), xs[1..], sols[1..])
  }

  function PicturesOf(xs: seq<Sample>): seq<Picture> {
    seq(|xs|, i requires 0 <= i < |xs| => xs[i].picture)
  }

  function CornersOf(xs: seq<Sample>): seq<CornerSet> {
    seq(|xs|, i requires 0 <= i < |xs| => xs[i].corners)
  }

  function IdsOf(xs: seq<Sample>): seq<IdSet> {
    seq(|xs|, i requires 0 <= i < |xs| => xs[i].ids)
  }

  /** Each projection of a nonempty sample list is its first sample's part followed by the rest's. */
  lemma OfFirst(xs: seq<Sample>)
    requires |xs| > 0
    ensures PicturesOf(xs) == [xs[0].picture] + PicturesOf(xs[1..])
    ensures CornersOf(xs) == [xs[0].corners] + CornersOf(xs[1..])
    ensures IdsOf(xs) == [xs[0].ids] + IdsOf(xs[1..])
  {
  }

  /**
   * N accepted samples add exactly N entries to each stack, in capture order,
   * and leave the invariant, the library and the last solution in place.
   */
  lemma {:induction false} CyclesAccumulate(s: Session, xs: seq<Sample>, sols: seq<Solution>)
    requires Inv(s) && s.engine.Some? && |xs| == |sols|
    ensures
      var t := Cycles(s, xs, sols);
      && t.shots == s.shots + PicturesOf(xs)
      && t.corners == s.corners + CornersOf(xs)
      && t.ids == s.ids + IdsOf(xs)
      && t.pictures == t.shots
      && t.engine == s.engine
      && (|sols| > 0 ==> t.fields == sols[|sols| - 1].AsFields())
      && (|sols| == 0 ==> t.fields == s.fields)
      && Inv(t)
    decreases |xs|
  {
    if |xs| > 0 {
      var u := AcceptCycle(s, xs[0], sols[0]);
      AcceptCycleEffect(s, xs[0], sols[0]);
      CyclesAccumulate(u, xs[1..], sols[1..]);
      OfFirst(xs);
      Strings.Assoc(s.shots, [xs[0].picture], PicturesOf(xs[1..]));
      Strings.Assoc(s.corners, [xs[0].corners], CornersOf(xs[1..]));
      Strings.Assoc(s.ids, [xs[0].ids], IdsOf(xs[1..]));
    }
  }

  /** A fresh session that accepts N samples hands exactly those N pictures, in order, and the last solution to the results screen. */
  lemma HandoffCarriesAcceptedPictures(xs: seq<Sample>, sols: seq<Solution>)
    requires |xs| == |sols| && |xs| > 0
    ensures
      var t := Cycles(LoadEngine(Initial), xs, sols);
      && !FinishDisabled(t)
      && Finish(t).0 == Results(sols[|sols| - 1].AsFields(), PicturesOf(xs))
  {
    CyclesAccumulate(LoadEngine(Initial), xs, sols);
  }

  /**
   * The rollback guard as written never pops a sample that was just kept: the
   * displayed list was copied from the screenshot stack by the same tick, so the
   * two have the same length. The rejected sample stays on all three stacks
   * while the displayed list loses it, and the invariant breaks.
   */
  lemma AsWrittenKeepsRejectedSample(s: Session, x: Sample)
    requires Inv(s) && s.engine.Some?
    ensures
      var t := RollbackAsWritten(ArmAndDetect(s, x));
      && t.shots == s.shots + [x.picture]
      && t.corners == s.corners + [x.corners]
      && t.pictures == s.pictures
      && !Inv(t)
  {
  }

  /**
   * A concrete run of the defect: the first sample is rejected, then a second
   * one is accepted; the displayed list shows the rejected picture again and
   * the next solve receives both samples.
   */
  lemma AsWrittenRejectedPictureReappears()
    ensures
      var a := Sample("data:image/jpeg;base64,A", Size(640, 480), CornerSet([]), IdSet([1]));
      var b := Sample("data:image/jpeg;base64,B", Size(640, 480), CornerSet([]), IdSet([2]));
      var s0 := LoadEngine(Initial);
      var s1 := Dismiss(RollbackAsWritten(ArmAndDetect(s0, a)));
      var s2 := ArmAndDetect(s1, b);
      && s1.pictures == [] && s1.shots == [a.picture]
      && s2.pictures == [a.picture, b.picture]
      && |s2.corners| == 2
  {
  }

  /**
   * The same events run under both guards: load, capture, a tick that keeps
   * picture A, a rejected solve. As written, the stacks keep A while the
   * displayed list is empty; corrected, both are empty again.
   */
  lemma AsWrittenRunLeavesRejectedSample()
    ensures
      var a := Sample("data:image/jpeg;base64,A", Size(640, 480), CornerSet([]), IdSet([1]));
      var es := [LibraryLoaded, CapturePressed, FrameTick(AsFrame(a)), SolveFinished(Rejected)];
      && Run(AsWritten, Initial, es).Some?
      && Run(AsWritten, Initial, es).value.shots == [a.picture]
      && Run(AsWritten, Initial, es).value.pictures == []
      && Run(Corrected, Initial, es).Some?
      && Run(Corrected, Initial, es).value.shots == []
      && Run(Corrected, Initial, es).value.pictures == []
  {
    var a := Sample("data:image/jpeg;base64,A", Size(640, 480), CornerSet([]), IdSet([1]));
    var es := [LibraryLoaded, CapturePressed, FrameTick(AsFrame(a)), SolveFinished(Rejected)];
    var t := ArmAndDetect(LoadEngine(Initial), a);
    RunFour(AsWritten, es);
    RunFour(Corrected, es);
    assert t.shots == [a.picture] && t.pictures == [a.picture];
  }

  /** A run from the fresh screen that keeps one sample and has its solve rejected, event by event. */
  lemma RunFour(g: Guard, es: seq<Event>)
    requires |es| == 4 && es[0] == LibraryLoaded && es[1] == CapturePressed
    requires es[2].FrameTick? && es[2].frame.Shot? && es[2].frame.detection.Corners?
    requires es[3] == SolveFinished(Rejected)
    ensures
      var t := Tick(Arm(LoadEngine(Initial)), es[2].frame).session;
      Run(g, Initial, es) == Some(CalibrateWith(g, t, Rejected).session)
  {
    var s1 := LoadEngine(Initial);
    var s2 := Arm(s1);
    var s3 := Tick(s2, es[2].frame).session;
    var s4 := CalibrateWith(g, s3, Rejected).session;
    RunStep(g, Initial, es);
    RunStep(g, s1, es[1..]);
    RunStep(g, s2, es[1..][1..]);
    RunStep(g, s3, es[1..][1..][1..]);
    assert es[1..][1..][1..][1..] == [];
  }

  /** A run of enabled events is its first event's step followed by the run of the rest. */
  lemma RunStep(g: Guard, s: Session, es: seq<Event>)
    requires |es| > 0 && Enabled(s, es[0])
    ensures Run(g, s, es) == Run(g, Apply(g, s, es[0]), es[1..])
  {
  }
}
