/** The per-result assembly of the holistic tracker and its camera lifecycle
    (src/components/HolisticTracker.tsx). */
module HolisticTracker {
  import opened Types

  // ---------------------------------------------------------------------------------------------
  // One tracking result
  // ---------------------------------------------------------------------------------------------

  datatype Landmark = Landmark(x: real, y: real, z: real)

  type Landmarks = seq<Landmark>

  /** The fields of a landmarker result the callback reads; each may be absent. `ea` is the
      minified field some builds use for the world landmarks. */
  datatype Results = Results(
    faceLandmarks: Option<Landmarks>,
    poseLandmarks: Option<Landmarks>,
    poseWorldLandmarks: Option<Landmarks>,
    ea: Option<Landmarks>,
    leftHandLandmarks: Option<Landmarks>,
    rightHandLandmarks: Option<Landmarks>)

  /** What a solver call does: return a rig (possibly none), or throw. */
  datatype Outcome<T> = Returned(value: Option<T>) | Threw

  /** The three solvers of the rigging library, as uninterpreted functions of their landmarks. */
  datatype Solvers = Solvers(
    pose: (Landmarks, Option<Landmarks>) -> Outcome<PoseRig>,
    face: Landmarks -> Outcome<FaceRig>,
    hand: (Landmarks, Side) -> Outcome<HandRig>)

  /** A callback the handler invokes: the status listener, or the pose listener. */
  datatype Callback = StatusUpdate(status: TrackingStatus) | PoseUpdate(pose: Option<RiggedPose>)

  /** `try { rig = solve(...) } catch { }` starting from `rig = null`: a throw leaves the rig
      null, a return sets it to what was returned. */
  function Caught<T>(o: Outcome<T>): (r: Option<T>)
    ensures o.Threw? ==> r.None?
    ensures o.Returned? ==> r == o.value
  {
    match o
    case Returned(v) => v
    case Threw => None
  }

  function StatusOf(results: Results): TrackingStatus
  {
    TrackingStatus(
      results.faceLandmarks.Some?,
      results.poseLandmarks.Some?,
      results.leftHandLandmarks.Some? || results.rightHandLandmarks.Some?)
  }

  /** `poseWorldLandmarks || ea`. */
  function Pose3D(results: Results): Option<Landmarks>
  {
    if results.poseWorldLandmarks.Some? then results.poseWorldLandmarks else results.ea
  }

  /** A solve guarded by the presence of its landmarks. */
  function SolveIfPresent<T>(landmarks: Option<Landmarks>, solve: Landmarks -> Outcome<T>): Option<T>
  {
    if landmarks.Some? then Caught(solve(landmarks.value)) else None
  }

  /** The record emitted when the body landmarks are present: four independent solves. */
  function Assemble(results: Results, solvers: Solvers): RiggedPose
    requires results.poseLandmarks.Some?
  {
    var poseRig := Caught(solvers.pose(results.poseLandmarks.value, Pose3D(results)));
    var faceRig := SolveIfPresent(results.faceLandmarks, solvers.face);
    var rightHandRig := SolveIfPresent(results.rightHandLandmarks, lm => solvers.hand(lm, Right));
    var leftHandRig := SolveIfPresent(results.leftHandLandmarks, lm => solvers.hand(lm, Left));
    RiggedPose(faceRig, poseRig, rightHandRig, leftHandRig)
  }

  /** The callbacks one result produces, in order. */
  function OnResults(mounted: bool, hasStatusListener: bool, results: Results, solvers: Solvers): (calls: seq<Callback>)
    ensures !mounted <==> calls == []
    ensures |calls| <= 2
  {
    if !mounted then []
    else
      var status := if hasStatusListener then [StatusUpdate(StatusOf(results))] else [];
      if results.poseLandmarks.None? then status + [PoseUpdate(None)]
      else status + [PoseUpdate(Some(Assemble(results, solvers)))]
  }

  /** The status goes out first, whether or not a pose follows, and its three flags say which
      landmark sets are present. */
  lemma StatusComesFirst(results: Results, solvers: Solvers)
    ensures var calls := OnResults(true, true, results, solvers);
      |calls| == 2 && calls[0].StatusUpdate? && calls[1].PoseUpdate? &&
      (calls[0].status.face <==> results.faceLandmarks.Some?) &&
      (calls[0].status.pose <==> results.poseLandmarks.Some?) &&
      (calls[0].status.hands <==> results.leftHandLandmarks.Some? || results.rightHandLandmarks.Some?)
  {
  }

  /** Without a status listener only the pose listener is called. */
  lemma NoListenerNoStatus(results: Results, solvers: Solvers)
    ensures var calls := OnResults(true, false, results, solvers);
      |calls| == 1 && calls[0].PoseUpdate?
  {
  }

  /** Without body landmarks the pose listener gets null, and no solver is consulted: the calls
      are the same whatever the solvers do. */
  lemma NoPoseEmitsNull(hasStatusListener: bool, results: Results, s1: Solvers, s2: Solvers)
    requires results.poseLandmarks.None?
    ensures OnResults(true, hasStatusListener, results, s1) == OnResults(true, hasStatusListener, results, s2)
    ensures var calls := OnResults(true, hasStatusListener, results, s1);
      calls[|calls| - 1] == PoseUpdate(None)
  {
  }

  /** With body landmarks the pose listener gets a record. */
  lemma PoseEmitsRecord(hasStatusListener: bool, results: Results, solvers: Solvers)
    requires results.poseLandmarks.Some?
    ensures var calls := OnResults(true, hasStatusListener, results, solvers);
      calls[|calls| - 1] == PoseUpdate(Some(Assemble(results, solvers)))
  {
  }

  /** The 3D input is the world landmarks when present and otherwise `ea`; no other field of the
      result is looked at. */
  lemma Pose3DSource(r1: Results, r2: Results)
    requires r1.poseWorldLandmarks == r2.poseWorldLandmarks && r1.ea == r2.ea
    ensures Pose3D(r1) == Pose3D(r2)
    ensures r1.poseWorldLandmarks.Some? ==> Pose3D(r1) == r1.poseWorldLandmarks
    ensures r1.poseWorldLandmarks.None? ==> Pose3D(r1) == r1.ea
  {
  }

  /** A face or hand region is filled only when its landmarks are present and its solve returns a
      rig; a solve that throws leaves only its own region null. */
  lemma RegionPresence(results: Results, solvers: Solvers)
    requires results.poseLandmarks.Some?
    ensures var p := Assemble(results, solvers);
      (p.face.Some? ==> results.faceLandmarks.Some? && solvers.face(results.faceLandmarks.value).Returned?) &&
      (p.rightHand.Some? ==> results.rightHandLandmarks.Some? && solvers.hand(results.rightHandLandmarks.value, Right).Returned?) &&
      (p.leftHand.Some? ==> results.leftHandLandmarks.Some? && solvers.hand(results.leftHandLandmarks.value, Left).Returned?) &&
      (p.pose.Some? ==> solvers.pose(results.poseLandmarks.value, Pose3D(results)).Returned?)
    ensures var p := Assemble(results, solvers);
      (forall v :: results.faceLandmarks.Some? && solvers.face(results.faceLandmarks.value) == Returned(v) ==>
        p.face == v) &&
      (forall v :: results.rightHandLandmarks.Some? && solvers.hand(results.rightHandLandmarks.value, Right) == Returned(v) ==>
        p.rightHand == v) &&
      (forall v :: results.leftHandLandmarks.Some? && solvers.hand(results.leftHandLandmarks.value, Left) == Returned(v) ==>
        p.leftHand == v) &&
      (forall v :: solvers.pose(results.poseLandmarks.value, Pose3D(results)) == Returned(v) ==> p.pose == v)
  {
  }

  /** Each region depends on its own solve only: two solver sets that agree on one region's solve
      give that region the same value, whatever the other solves do (throwing included). */
  lemma SolveIsolation(results: Results, s1: Solvers, s2: Solvers)
    requires results.poseLandmarks.Some?
    ensures s1.pose(results.poseLandmarks.value, Pose3D(results)) == s2.pose(results.poseLandmarks.value, Pose3D(results)) ==>
      Assemble(results, s1).pose == Assemble(results, s2).pose
    ensures results.faceLandmarks.Some? && s1.face(results.faceLandmarks.value) == s2.face(results.faceLandmarks.value) ==>
      Assemble(results, s1).face == Assemble(results, s2).face
    ensures results.faceLandmarks.None? ==> Assemble(results, s1).face == Assemble(results, s2).face == None
    ensures (results.rightHandLandmarks.Some? &&
      s1.hand(results.rightHandLandmarks.value, Right) == s2.hand(results.rightHandLandmarks.value, Right)) ==>
      Assemble(results, s1).rightHand == Assemble(results, s2).rightHand
    ensures (results.leftHandLandmarks.Some? &&
      s1.hand(results.leftHandLandmarks.value, Left) == s2.hand(results.leftHandLandmarks.value, Left)) ==>
      Assemble(results, s1).leftHand == Assemble(results, s2).leftHand
  {
  }

  // ---------------------------------------------------------------------------------------------
  // Messages
  // ---------------------------------------------------------------------------------------------

  const MaxRetries: nat := 3

  const InitFailedMessage: string := "فشل تهيئة تتبع الجسم"
  const CameraFailedMessage: string := "فشل الوصول للكاميرا. يرجى إعادة تحميل الصفحة."
  const RetryingPrefix: string := "جاري المحاولة "
  const PermissionDeniedMessage: string := "تم رفض الوصول للكاميرا. يرجى السماح بالوصول."
  const CameraBusyMessage: string := "الكاميرا مستخدمة في تطبيق آخر. يرجى إغلاقه."
  const GenericCameraMessage: string := "خطأ في الكاميرا. يرجى إعادة المحاولة."

  function DigitChar(d: nat): (c: char)
    requires d < 10
    ensures '0' <= c <= '9'
  {
    ['0', '1', '2', '3', '4', '5', '6', '7', '8', '9'][d]
  }

  /** Decimal notation of a natural number, as a template literal prints it. */
  function NatToString(n: nat): (s: string)
    ensures |s| >= 1 && forall i :: 0 <= i < |s| ==> '0' <= s[i] <= '9'
    ensures n < 10 ==> s == [DigitChar(n)]
  {
    if n < 10 then [DigitChar(n)] else NatToString(n / 10) + [DigitChar(n % 10)]
  }

  /** `جاري المحاولة ${retryCount + 1}/${maxRetries}...` */
  function RetryMessage(retryCount: nat): string
  {
    RetryingPrefix + NatToString(retryCount + 1) + "/" + NatToString(MaxRetries) + "..."
  }

  /** Within the retry budget the message names the attempt about to be made, as one digit out
      of three, and it differs from the terminal message. */
  lemma RetryMessageShowsAttempt(retryCount: nat)
    requires retryCount < MaxRetries
    ensures RetryMessage(retryCount) == RetryingPrefix + [DigitChar(retryCount + 1)] + "/3..."
    ensures RetryMessage(retryCount) != CameraFailedMessage
  {
    assert |RetryMessage(retryCount)| == |RetryingPrefix| + 6 == 20 != |CameraFailedMessage|;
  }

  /** What a failed camera start decides: the message to show and whether to schedule an
      increment of the retry counter. */
  datatype FailureDecision = FailureDecision(message: string, scheduleRetry: bool)

  function CameraFailure(retryCount: nat): (d: FailureDecision)
  {
    if retryCount < MaxRetries then FailureDecision(RetryMessage(retryCount), true)
    else FailureDecision(CameraFailedMessage, false)
  }

  /** A retry is scheduled exactly while the budget lasts, and the terminal message is shown
      exactly when it is spent. */
  lemma CameraFailureDecision(retryCount: nat)
    ensures CameraFailure(retryCount).scheduleRetry <==> retryCount < MaxRetries
    ensures CameraFailure(retryCount).message == CameraFailedMessage <==> retryCount >= MaxRetries
  {
    if retryCount < MaxRetries {
      RetryMessageShowsAttempt(retryCount);
    }
  }

  /** What `onUserMediaError` receives: a DOM exception with its name, or anything else. */
  datatype MediaError = DomException(name: string) | OtherError

  function WebcamErrorMessage(err: MediaError): string
  {
    if err.DomException? && err.name == "NotAllowedError" then PermissionDeniedMessage
    else if err.DomException? && err.name == "NotReadableError" then CameraBusyMessage
    else GenericCameraMessage
  }

  /** The message is chosen by the exception's name alone, and each of the three messages is
      chosen for exactly one class of errors. */
  lemma WebcamErrorClasses(err: MediaError)
    ensures WebcamErrorMessage(err) == PermissionDeniedMessage <==> err == DomException("NotAllowedError")
    ensures WebcamErrorMessage(err) == CameraBusyMessage <==> err == DomException("NotReadableError")
    ensures WebcamErrorMessage(err) == GenericCameraMessage <==>
      err != DomException("NotAllowedError") && err != DomException("NotReadableError")
  {
    assert |PermissionDeniedMessage| == 44 && |CameraBusyMessage| == 43 && |GenericCameraMessage| == 37;
  }

  // ---------------------------------------------------------------------------------------------
  // Lifecycle
  // ---------------------------------------------------------------------------------------------

  /** The tracker's state across effect runs: the `mounted` flag of the current run, the three
      state cells, the pending retry timer, the two references and whether the objects they
      pointed to are still live. */
  class Tracker {
    var mounted: bool
    var isReady: bool
    var error: Option<string>
    var retryCount: nat
    var retryPending: bool
    var cameraRef: bool
    var holisticRef: bool
    var cameraRunning: bool
    var holisticOpen: bool

    /** The retry counter never exceeds the budget, a timer is pending only within it, and a
        held reference points to a live object. */
    predicate Valid()
      reads this
    {
      retryCount <= MaxRetries &&
      (retryPending ==> retryCount < MaxRetries) &&
      (cameraRef ==> cameraRunning) &&
      (holisticRef ==> holisticOpen)
    }

    constructor()
      ensures Valid() && !mounted && !isReady && error.None? && retryCount == 0
      ensures !retryPending && !cameraRef && !holisticRef && !cameraRunning && !holisticOpen
    {
      mounted := false;
      isReady := false;
      error := None;
      retryCount := 0;
      retryPending := false;
      cameraRef := false;
      holisticRef := false;
      cameraRunning := false;
      holisticOpen := false;
    }

    /** The effect body: create and configure the landmarker; if that throws, show the
        initialisation message. */
    method Mount(initThrows: bool)
      requires Valid()
      modifies this
      ensures Valid() && mounted
      ensures initThrows ==> error == Some(InitFailedMessage) && holisticRef == old(holisticRef)
      ensures !initThrows ==> holisticRef && holisticOpen && error == old(error)
      ensures retryCount == old(retryCount) && retryPending == old(retryPending)
      ensures isReady == old(isReady) && cameraRef == old(cameraRef) && cameraRunning == old(cameraRunning)
    {
      mounted := true;
      if initThrows {
        error := Some(InitFailedMessage);
      } else {
        holisticOpen := true;
        holisticRef := true;
      }
    }

    /** The webcam became ready: construct and start the camera. */
    method CameraStart(startThrows: bool)
      requires Valid()
      modifies this
      ensures Valid()
      ensures !startThrows ==> cameraRef && isReady && error.None? && retryCount == 0 && retryPending == old(retryPending)
      ensures startThrows ==>
        var d := CameraFailure(old(retryCount));
        error == Some(d.message) && retryPending == (old(retryPending) || d.scheduleRetry) &&
        retryCount == old(retryCount) && cameraRef == old(cameraRef) && isReady == old(isReady)
      ensures mounted == old(mounted) && holisticRef == old(holisticRef)
    {
      if !startThrows {
        cameraRunning := true;
        cameraRef := true;
        isReady := true;
        error := None;
        retryCount := 0;
      } else {
        var d := CameraFailure(retryCount);
        error := Some(d.message);
        if d.scheduleRetry {
          retryPending := true;
        }
      }
    }

    /** The 2 s backoff elapsed: `setRetryCount(prev => prev + 1)`. */
    method RetryTimerFires()
      requires Valid() && retryPending
      modifies this
      ensures Valid()
      ensures retryCount == old(retryCount) + 1 && !retryPending
      ensures mounted == old(mounted) && error == old(error) && cameraRef == old(cameraRef) && holisticRef == old(holisticRef)
    {
      retryCount := retryCount + 1;
      retryPending := false;
    }

    /** The effect cleanup: mark the run unmounted, cancel the retry timer, stop the camera and
        close the landmarker, dropping both references even when stopping or closing throws. It
        does not stop the run's readiness poll, which is local to the initialisation; a poll that
        outlives its run is not represented here. */
    method Teardown(stopThrows: bool, closeThrows: bool)
      requires Valid()
      modifies this
      ensures Valid()
      ensures !mounted && !retryPending && !cameraRef && !holisticRef
      ensures old(cameraRef) && !stopThrows ==> !cameraRunning
      ensures old(holisticRef) && !closeThrows ==> !holisticOpen
      ensures retryCount == old(retryCount) && error == old(error) && isReady == old(isReady)
    {
      mounted := false;
      retryPending := false;
      if cameraRef {
        if !stopThrows {
          cameraRunning := false;
        }
        cameraRef := false;
      }
      if holisticRef {
        if !closeThrows {
          holisticOpen := false;
        }
        holisticRef := false;
      }
    }

    /** `onUserMediaError`: show the message for the error. */
    method UserMediaError(err: MediaError)
      requires Valid()
      modifies this
      ensures Valid() && error == Some(WebcamErrorMessage(err))
      ensures mounted == old(mounted) && retryCount == old(retryCount) && retryPending == old(retryPending)
      ensures isReady == old(isReady) && cameraRef == old(cameraRef) && holisticRef == old(holisticRef)
    {
      error := Some(WebcamErrorMessage(err));
    }

    /** The landmarker delivered a result: the callbacks the current run's handler makes. */
    method Deliver(hasStatusListener: bool, results: Results, solvers: Solvers) returns (calls: seq<Callback>)
      requires Valid()
      ensures calls == OnResults(mounted, hasStatusListener, results, solvers)
      ensures !mounted ==> calls == []
    {
      calls := OnResults(mounted, hasStatusListener, results, solvers);
    }
  }

  /** Within one run, however often the camera fails, the counter never passes the budget: every
      failure after the third shows the terminal message and schedules nothing. A failure seen by
      the poll of a run already torn down, with that run's stale count, is outside this lemma. */
  lemma RetryBudgetExhausted(retryCount: nat)
    requires retryCount <= MaxRetries
    ensures !CameraFailure(retryCount).scheduleRetry ==> retryCount == MaxRetries
    ensures retryCount == MaxRetries ==> CameraFailure(retryCount) == FailureDecision(CameraFailedMessage, false)
  {
  }
}
