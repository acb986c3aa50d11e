/** The application shell's state and handlers (src/App.tsx), with the string trim the URL form
    relies on. */
module App {
  import opened Types
  import Data
  import AvatarLibrary
  import HolisticTracker

  // ---------------------------------------------------------------------------------------------
  // String.prototype.trim
  // ---------------------------------------------------------------------------------------------

  /** The white space and line terminators `trim` removes (section 22.1.3.32 of ECMA-262, via
      the WhiteSpace and LineTerminator productions). */
  predicate IsJsWhitespace(c: char)
  {
    c == '\U{9}' || c == '\U{B}' || c == '\U{C}' || c == ' ' || c == '\U{A0}' || c == '\U{FEFF}' ||
    c == '\U{1680}' || ('\U{2000}' <= c <= '\U{200A}') || c == '\U{202F}' || c == '\U{205F}' || c == '\U{3000}' ||
    c == '\n' || c == '\r' || c == '\U{2028}' || c == '\U{2029}'
  }

  predicate AllWhitespace(s: string)
  {
    forall i :: 0 <= i < |s| ==> IsJsWhitespace(s[i])
  }

  /** Drops the leading white space: the result is a suffix of the input that does not start
      with white space, and everything dropped is white space. */
  function TrimStart(s: string): (r: string)
    ensures |r| <= |s| && r == s[|s| - |r|..]
    ensures AllWhitespace(s[..|s| - |r|])
    ensures r != [] ==> !IsJsWhitespace(r[0])
  {
    if s != [] && IsJsWhitespace(s[0]) then
      var r := TrimStart(s[1..]);
      assert s[..|s| - |r|] == [s[0]] + s[1..][..|s[1..]| - |r|];
      r
    else s
  }

  /** Drops the trailing white space: the result is a prefix of the input that does not end with
      white space, and everything dropped is white space. */
  function TrimEnd(s: string): (r: string)
    ensures |r| <= |s| && r == s[..|r|]
    ensures AllWhitespace(s[|r|..])
    ensures r != [] ==> !IsJsWhitespace(r[|r| - 1])
  {
    if s != [] && IsJsWhitespace(s[|s| - 1]) then
      var r := TrimEnd(s[..|s| - 1]);
      assert s[|r|..] == s[..|s| - 1][|r|..] + [s[|s| - 1]];
      r
    else s
  }

  function Trim(s: string): (r: string)
  {
    TrimEnd(TrimStart(s))
  }

  /** `trim` returns the infix left after dropping white space at both ends: it neither starts
      nor ends with white space, and everything dropped around it is white space. */
  lemma TrimIsInfix(s: string)
    ensures var r := Trim(s);
      exists i :: 0 <= i <= i + |r| <= |s| && r == s[i..i + |r|] &&
        AllWhitespace(s[..i]) && AllWhitespace(s[i + |r|..])
  {
    var t := TrimStart(s);
    var r := TrimEnd(t);
    var i := |s| - |t|;
    assert t == s[i..];
    assert r == s[i..i + |r|] by {
      assert r == t[..|r|];
      assert s[i..][..|r|] == s[i..i + |r|];
    }
    assert AllWhitespace(s[i + |r|..]) by {
      assert s[i + |r|..] == t[|r|..];
    }
  }

  /** The trimmed string neither starts nor ends with white space. */
  lemma TrimHasNoOuterWhitespace(s: string)
    ensures var r := Trim(s); r != [] ==> !IsJsWhitespace(r[0]) && !IsJsWhitespace(r[|r| - 1])
  {
    var t := TrimStart(s);
    var r := TrimEnd(t);
    if r != [] {
      assert r[0] == t[0];
    }
  }

  /** The trimmed string is empty exactly when the input is all white space. */
  lemma TrimEmptyIffAllWhitespace(s: string)
    ensures Trim(s) == [] <==> AllWhitespace(s)
  {
    var t := TrimStart(s);
    if Trim(s) == [] {
      assert t == [];
      assert s[..|s|] == s;
    } else {
      assert !IsJsWhitespace(s[|s| - |t|]);
    }
  }

  /** Leaves a string that has no white space at either end as it is. */
  lemma TrimKeepsTrimmed(s: string)
    requires s != [] ==> !IsJsWhitespace(s[0]) && !IsJsWhitespace(s[|s| - 1])
    ensures Trim(s) == s
  {
  }

  /** Trimming twice is trimming once. */
  lemma TrimIdempotent(s: string)
    ensures Trim(Trim(s)) == Trim(s)
  {
    TrimHasNoOuterWhitespace(s);
    TrimKeepsTrimmed(Trim(s));
  }

  // ---------------------------------------------------------------------------------------------
  // The application state
  // ---------------------------------------------------------------------------------------------

  /** https://models.readyplayer.me/693fd189fe6f676b663eef96.glb */
  const DefaultModelUrl: string := AvatarLibrary.HostedFile("693fd189fe6f676b663eef96", ".glb")

  /** The default model is the first library avatar, so its card starts out selected. */
  lemma DefaultModelIsFirstAvatar()
    ensures DefaultModelUrl == AvatarLibrary.Avatars[0].url
  {
  }

  /** The application's state cells and their handlers. */
  class Shell {
    var currentBg: Background
    var riggedPose: Option<RiggedPose>
    var trackingStatus: TrackingStatus
    var mode: AppMode
    var modelUrl: string
    var showUrlInput: bool
    var inputUrl: string

    /** The first render: the first built-in background, no pose, nothing tracked, camera mode,
        the default model, the URL form hidden and pre-filled with the default model. */
    constructor()
      ensures currentBg == Data.Backgrounds[0] && riggedPose.None?
      ensures trackingStatus == TrackingStatus(false, false, false) && mode == Camera
      ensures modelUrl == DefaultModelUrl && !showUrlInput && inputUrl == modelUrl
    {
      currentBg := Data.Backgrounds[0];
      riggedPose := None;
      trackingStatus := TrackingStatus(false, false, false);
      mode := Camera;
      modelUrl := DefaultModelUrl;
      showUrlInput := false;
      inputUrl := DefaultModelUrl;
    }

    /** `handlePoseUpdate`: the new pose replaces the stored one wholesale. */
    method HandlePoseUpdate(pose: Option<RiggedPose>)
      modifies this
      ensures riggedPose == pose
      ensures currentBg == old(currentBg) && trackingStatus == old(trackingStatus) && mode == old(mode)
      ensures modelUrl == old(modelUrl) && showUrlInput == old(showUrlInput) && inputUrl == old(inputUrl)
    {
      riggedPose := pose;
    }

    /** `handleTrackingUpdate`: the new status replaces the stored one wholesale. */
    method HandleTrackingUpdate(status: TrackingStatus)
      modifies this
      ensures trackingStatus == status
      ensures currentBg == old(currentBg) && riggedPose == old(riggedPose) && mode == old(mode)
      ensures modelUrl == old(modelUrl) && showUrlInput == old(showUrlInput) && inputUrl == old(inputUrl)
    {
      trackingStatus := status;
    }

    /** One callback from the tracker, routed to its handler. */
    method Receive(call: HolisticTracker.Callback)
      modifies this
      ensures call.StatusUpdate? ==> trackingStatus == call.status && riggedPose == old(riggedPose)
      ensures call.PoseUpdate? ==> riggedPose == call.pose && trackingStatus == old(trackingStatus)
      ensures currentBg == old(currentBg) && mode == old(mode)
      ensures modelUrl == old(modelUrl) && showUrlInput == old(showUrlInput) && inputUrl == old(inputUrl)
    {
      match call
      case StatusUpdate(status) => HandleTrackingUpdate(status);
      case PoseUpdate(pose) => HandlePoseUpdate(pose);
    }

    /** `handleUrlSubmit`: an input that trims to nothing changes nothing; otherwise the trimmed
        input becomes the model and the form closes. The input field keeps what was typed. */
    method HandleUrlSubmit()
      modifies this
      ensures AllWhitespace(old(inputUrl)) ==> modelUrl == old(modelUrl) && showUrlInput == old(showUrlInput)
      ensures !AllWhitespace(old(inputUrl)) ==> modelUrl == Trim(old(inputUrl)) && !showUrlInput
      ensures modelUrl != old(modelUrl) ==> modelUrl != [] && !IsJsWhitespace(modelUrl[0])
      ensures inputUrl == old(inputUrl) && currentBg == old(currentBg) && riggedPose == old(riggedPose)
      ensures trackingStatus == old(trackingStatus) && mode == old(mode)
    {
      TrimEmptyIffAllWhitespace(inputUrl);
      TrimHasNoOuterWhitespace(inputUrl);
      if Trim(inputUrl) != [] {
        modelUrl := Trim(inputUrl);
        showUrlInput := false;
      }
    }

    /** `handleSelectAvatar`: the avatar's url becomes both the model and the form's content. */
    method HandleSelectAvatar(url: string)
      modifies this
      ensures modelUrl == url && inputUrl == url
      ensures showUrlInput == old(showUrlInput) && currentBg == old(currentBg) && riggedPose == old(riggedPose)
      ensures trackingStatus == old(trackingStatus) && mode == old(mode)
    {
      modelUrl := url;
      inputUrl := url;
    }

    /** `handleBackgroundChange`. */
    method HandleBackgroundChange(bg: Background)
      modifies this
      ensures currentBg == bg
      ensures riggedPose == old(riggedPose) && trackingStatus == old(trackingStatus) && mode == old(mode)
      ensures modelUrl == old(modelUrl) && showUrlInput == old(showUrlInput) && inputUrl == old(inputUrl)
    {
      currentBg := bg;
    }

    /** The link button toggles the URL form. */
    method ToggleUrlInput()
      modifies this
      ensures showUrlInput == !old(showUrlInput)
      ensures currentBg == old(currentBg) && riggedPose == old(riggedPose) && trackingStatus == old(trackingStatus)
      ensures mode == old(mode) && modelUrl == old(modelUrl) && inputUrl == old(inputUrl)
    {
      showUrlInput := !showUrlInput;
    }

    /** The form's close button hides the URL form. */
    method CloseUrlInput()
      modifies this
      ensures !showUrlInput
      ensures currentBg == old(currentBg) && riggedPose == old(riggedPose) && trackingStatus == old(trackingStatus)
      ensures mode == old(mode) && modelUrl == old(modelUrl) && inputUrl == old(inputUrl)
    {
      showUrlInput := false;
    }

    /** The camera and video buttons of the mode toggle. */
    method SetMode(m: AppMode)
      modifies this
      ensures mode == m
      ensures currentBg == old(currentBg) && riggedPose == old(riggedPose) && trackingStatus == old(trackingStatus)
      ensures modelUrl == old(modelUrl) && showUrlInput == old(showUrlInput) && inputUrl == old(inputUrl)
    {
      mode := m;
    }

    /** Typing in the URL field. */
    method EditInputUrl(value: string)
      modifies this
      ensures inputUrl == value
      ensures currentBg == old(currentBg) && riggedPose == old(riggedPose) && trackingStatus == old(trackingStatus)
      ensures mode == old(mode) && modelUrl == old(modelUrl) && showUrlInput == old(showUrlInput)
    {
      inputUrl := value;
    }
  }
}
