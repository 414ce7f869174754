/** The student's join-lecture page: it asks for the camera and microphone,
    connects to the signalling server, keeps a five-second frame-sampling
    interval while the camera is on, the connection is up and emotion
    detection is enabled, and releases everything when the student leaves or
    the page goes away. As written, the stream reaches the video element only
    when a grant arrives while that element is already on screen: after a
    single click on "Join Session" the video has no stream and no size, so no
    frame is posted, and only a double click posts frames, from the second
    stream. The model's page hands the stream to the video element when the
    element mounts. The media stream, the socket and the sampling interval are the
    resources it owns; each is a numbered handle here, and the browser's
    answers (permission granted or denied, socket events, timer ticks) are
    events. */
module JoinLecture {

  import opened Types

  /** The one permission message the page shows. */
  const PermissionDenied := "Camera/Microphone access denied. Please allow permissions to join."

  /** Where leaving the session goes. */
  const LeaveTarget := "/student/dashboard"

  /** The room request sent once the socket connects. */
  datatype JoinMessage = JoinMessage(lectureId: string, role: string)

  /** One frame posted for analysis, with the canvas size it was drawn at. */
  datatype FrameUpload = FrameUpload(lectureId: string, studentId: nat, width: nat, height: nat)

  /** How a frame upload ended; the page only logs a failure. */
  datatype UploadOutcome = Delivered | Failed

  /** The three flags the sampling effect depends on. */
  datatype Flags = Flags(camera: bool, detection: bool, connected: bool)

  /** Everything the page holds: its state, its refs, and which of the
      resources it ever obtained are still live. */
  datatype Session = Session(
    lectureId: string,
    emotionDetection: bool,
    isCameraActive: bool,
    isConnected: bool,
    permissionError: Option<string>,
    streamRef: Option<nat>,
    socketRef: Option<nat>,
    intervalRef: Option<nat>,
    liveStreams: set<nat>,
    openSockets: set<nat>,
    liveIntervals: set<nat>,
    nextId: nat,
    pending: nat,
    mounted: bool,
    sent: seq<JoinMessage>,
    uploads: seq<FrameUpload>,
    videoAttached: bool)

  function RefSet(r: Option<nat>): set<nat>
  {
    if r.Some? then {r.value} else {}
  }

  function FlagsOf(s: Session): Flags
  {
    Flags(s.isCameraActive, s.emotionDetection, s.isConnected)
  }

  /** Frames are sampled only with the camera on, detection enabled and the
      socket connected. */
  predicate Sampling(s: Session)
  {
    s.isCameraActive && s.emotionDetection && s.isConnected
  }

  /** The page as it first mounts: detection on, nothing acquired. */
  function Initial(lectureId: string): Session
  {
    Session(lectureId, true, false, false, None, None, None, None, {}, {}, {}, 0, 0, true, [], [], false)
  }

  // ---------------------------------------------------------------------------
  // Transitions

  /** The sampling effect, run when any of its three flags differs from the
      previous render: the previous run's cleanup clears the interval the ref
      holds (leaving the ref set); then an interval is started when all three
      flags hold, and otherwise the ref is emptied. */
  function SyncSampling(prev: Flags, s: Session): (t: Session)
    ensures FlagsOf(t) == FlagsOf(s)
    ensures prev != FlagsOf(s) ==> (t.intervalRef.Some? <==> Sampling(s))
  {
    if prev == FlagsOf(s) then s
    else
      var cleared := s.liveIntervals - RefSet(s.intervalRef);
      if Sampling(s) then
        s.(intervalRef := Some(s.nextId), liveIntervals := cleared + {s.nextId}, nextId := s.nextId + 1)
      else s.(intervalRef := None, liveIntervals := cleared)
  }

  /** "Join Session" or "Retry Permission": the error is cleared and the
      browser is asked for the camera and microphone. */
  function Start(s: Session): Session
  {
    s.(permissionError := None, pending := s.pending + 1)
  }

  /** The media request succeeds, as the page is written: the stream goes into
      its ref, the camera is marked active, and a socket is opened into the
      socket ref, whatever the refs held before and even if the page has gone
      away meanwhile (a state update on a page that is gone is dropped). The
      stream is handed to the video element only if that element is on
      screen, which it is only while the camera is already marked active. */
  function GrantAsWritten(s: Session): Session
    requires s.pending > 0
  {
    var stream, socket := s.nextId, s.nextId + 1;
    var t := s.(
      streamRef := Some(stream), liveStreams := s.liveStreams + {stream},
      isCameraActive := if s.mounted then true else s.isCameraActive,
      videoAttached := if s.mounted && s.isCameraActive then true else s.videoAttached,
      socketRef := Some(socket), openSockets := s.openSockets + {socket},
      nextId := s.nextId + 2, pending := s.pending - 1);
    SyncSampling(FlagsOf(s), t)
  }

  /** The video element mounting, with the stream the ref holds handed to it
      then: the element is on screen exactly while the camera is active. */
  function AttachStream(s: Session): Session
  {
    if s.mounted && s.isCameraActive && s.streamRef.Some? then s.(videoAttached := true) else s
  }

  /** The media request succeeds, with the grant that arrives after the page
      has gone away, or while a session already holds a stream, released on
      the spot instead of being stored over the live one, and with the video
      element picking up the stream when it mounts. */
  function Grant(s: Session): Session
    requires s.pending > 0
  {
    if !s.mounted || s.streamRef.Some? then s.(pending := s.pending - 1)
    else AttachStream(GrantAsWritten(s))
  }

  /** The media request fails: the fixed message shows, the camera is marked
      inactive (taking the video element off screen), and no connection is
      attempted. */
  function Deny(s: Session): Session
    requires s.pending > 0
  {
    var t := s.(
      pending := s.pending - 1,
      permissionError := if s.mounted then Some(PermissionDenied) else s.permissionError,
      isCameraActive := if s.mounted then false else s.isCameraActive,
      videoAttached := if s.mounted then false else s.videoAttached);
    SyncSampling(FlagsOf(s), t)
  }

  /** Socket `k` reports `connect`: the page is connected and asks to join
      the lecture's room as a student. */
  function Connected(s: Session, k: nat): Session
  {
    if k !in s.openSockets then s
    else
      var t := s.(
        isConnected := if s.mounted then true else s.isConnected,
        sent := s.sent + [JoinMessage(s.lectureId, "student")]);
      SyncSampling(FlagsOf(s), t)
  }

  /** Socket `k` reports `disconnect` or `connect_error`: the page is not
      connected. */
  function Lost(s: Session, k: nat): Session
  {
    if k !in s.openSockets then s
    else
      var t := s.(isConnected := if s.mounted then false else s.isConnected);
      SyncSampling(FlagsOf(s), t)
  }

  /** The emotion-detection switch. */
  function Toggle(s: Session): Session
  {
    SyncSampling(FlagsOf(s), s.(emotionDetection := !s.emotionDetection))
  }

  /** `stopSession`: each resource a ref holds is released and its ref
      emptied; the camera and connection flags drop. */
  function Stop(s: Session): Session
  {
    var t := s.(
      liveStreams := s.liveStreams - RefSet(s.streamRef), streamRef := None,
      openSockets := s.openSockets - RefSet(s.socketRef), socketRef := None,
      liveIntervals := s.liveIntervals - RefSet(s.intervalRef), intervalRef := None,
      isCameraActive := if s.mounted then false else s.isCameraActive,
      isConnected := if s.mounted then false else s.isConnected,
      videoAttached := if s.mounted then false else s.videoAttached);
    SyncSampling(FlagsOf(s), t)
  }

  /** The page goes away: its cleanup runs `stopSession`. */
  function Unmount(s: Session): Session
  {
    Stop(s).(mounted := false)
  }

  /** `captureAndSendFrame`: with the video and canvas present, the camera on,
      the socket connected, a video of non-zero size and a drawing context, the
      canvas takes the video's size and one frame is posted; the upload's
      outcome is only logged. `width` and `height` are the size of the
      attached stream: a video element without a stream reports zero. */
  function Capture(s: Session, hasVideo: bool, hasCanvas: bool, hasContext: bool,
                   width: nat, height: nat, outcome: UploadOutcome): Session
  {
    if hasVideo && hasCanvas && s.isCameraActive && s.isConnected
       && s.videoAttached && width != 0 && height != 0 && hasContext
    then s.(uploads := s.uploads + [FrameUpload(s.lectureId, 1, width, height)])
    else s
  }

  /** A tick of the five-second interval, which fires only while it is live. */
  function IntervalTick(s: Session, hasVideo: bool, hasCanvas: bool, hasContext: bool,
                        width: nat, height: nat, outcome: UploadOutcome): Session
  {
    if s.intervalRef.Some? && s.intervalRef.value in s.liveIntervals
    then Capture(s, hasVideo, hasCanvas, hasContext, width, height, outcome)
    else s
  }

  // ---------------------------------------------------------------------------
  // The invariant

  /** Everything but the sampling gate: each live resource is the one its ref
      holds, stream and socket are held together, the flags never outrun the
      resources, handles are fresh below `nextId`, and a page that is gone
      holds nothing. */
  predicate Owned(s: Session)
  {
    s.liveStreams == RefSet(s.streamRef)
    && s.openSockets == RefSet(s.socketRef)
    && s.liveIntervals == RefSet(s.intervalRef)
    && (s.streamRef.Some? <==> s.socketRef.Some?)
    && (s.isCameraActive ==> s.streamRef.Some?)
    && (s.isConnected ==> s.socketRef.Some?)
    && (s.streamRef.Some? ==> s.streamRef.value < s.nextId)
    && (s.socketRef.Some? ==> s.socketRef.value < s.nextId)
    && (s.intervalRef.Some? ==> s.intervalRef.value < s.nextId)
    && (!s.mounted ==> s.streamRef == None && s.socketRef == None && s.intervalRef == None)
    && (s.videoAttached ==> s.isCameraActive)
  }

  /** A sampling interval exists exactly while all three flags hold. */
  predicate Gate(s: Session)
  {
    s.intervalRef.Some? <==> Sampling(s)
  }

  /** The video element shows the stream whenever it is on screen. */
  predicate Attached(s: Session)
  {
    s.isCameraActive ==> s.videoAttached
  }

  predicate Valid(s: Session)
  {
    Owned(s) && Gate(s) && Attached(s)
  }

  /** The sampling effect restores the gate after any change of flags. */
  lemma SyncSamplingValid(prev: Flags, t: Session)
    requires Owned(t) && Attached(t)
    requires prev == FlagsOf(t) ==> Gate(t)
    requires prev != FlagsOf(t) ==> t.mounted
    ensures Valid(SyncSampling(prev, t))
  {
  }

  lemma InitialValid(lectureId: string)
    ensures Valid(Initial(lectureId))
    ensures Initial(lectureId).emotionDetection
  {
  }

  lemma StartKeepsValid(s: Session)
    requires Valid(s)
    ensures Valid(Start(s)) && Start(s).permissionError == None
  {
  }

  /** The corrected grant keeps every resource owned; a grant on a live page
      without a stream turns the camera on, shows the stream and opens a
      socket, but the page is not connected until the socket says so. */
  lemma GrantKeepsValid(s: Session)
    requires Valid(s) && s.pending > 0
    ensures Valid(Grant(s))
    ensures s.mounted && s.streamRef == None ==>
      Grant(s).isCameraActive && Grant(s).videoAttached && Grant(s).socketRef.Some?
      && Grant(s).isConnected == s.isConnected
  {
    if s.mounted && s.streamRef == None {
      var stream, socket := s.nextId, s.nextId + 1;
      var t := s.(
        streamRef := Some(stream), liveStreams := s.liveStreams + {stream},
        isCameraActive := true,
        videoAttached := if s.mounted && s.isCameraActive then true else s.videoAttached,
        socketRef := Some(socket), openSockets := s.openSockets + {socket},
        nextId := s.nextId + 2, pending := s.pending - 1);
      assert s.liveStreams == {} && s.openSockets == {};
      SyncSamplingValid(FlagsOf(s), t.(videoAttached := true));
      assert Grant(s) == SyncSampling(FlagsOf(s), t.(videoAttached := true));
    }
  }

  /** A refusal shows the message, turns the camera off and opens no socket. */
  lemma DenyKeepsValid(s: Session)
    requires Valid(s) && s.pending > 0
    ensures Valid(Deny(s))
    ensures s.mounted ==> Deny(s).permissionError == Some(PermissionDenied) && !Deny(s).isCameraActive
    ensures Deny(s).openSockets == s.openSockets && Deny(s).socketRef == s.socketRef
  {
    var t := s.(
      pending := s.pending - 1,
      permissionError := if s.mounted then Some(PermissionDenied) else s.permissionError,
      isCameraActive := if s.mounted then false else s.isCameraActive,
      videoAttached := if s.mounted then false else s.videoAttached);
    SyncSamplingValid(FlagsOf(s), t);
  }

  /** A connect on the page's socket marks it connected and sends exactly one
      join request for this lecture, as a student. */
  lemma ConnectedKeepsValid(s: Session, k: nat)
    requires Valid(s)
    ensures Valid(Connected(s, k))
    ensures k in s.openSockets ==>
      Connected(s, k).sent == s.sent + [JoinMessage(s.lectureId, "student")]
      && (s.mounted ==> Connected(s, k).isConnected)
  {
    if k in s.openSockets {
      var t := s.(
        isConnected := if s.mounted then true else s.isConnected,
        sent := s.sent + [JoinMessage(s.lectureId, "student")]);
      SyncSamplingValid(FlagsOf(s), t);
    }
  }

  lemma LostKeepsValid(s: Session, k: nat)
    requires Valid(s)
    ensures Valid(Lost(s, k))
    ensures k in s.openSockets && s.mounted ==> !Lost(s, k).isConnected && Lost(s, k).intervalRef == None
  {
    if k in s.openSockets {
      var t := s.(isConnected := if s.mounted then false else s.isConnected);
      SyncSamplingValid(FlagsOf(s), t);
    }
  }

  /** Toggling flips detection, and toggling twice restores it. */
  lemma ToggleKeepsValid(s: Session)
    requires Valid(s) && s.mounted
    ensures Valid(Toggle(s))
    ensures Toggle(s).emotionDetection == !s.emotionDetection
    ensures Toggle(Toggle(s)).emotionDetection == s.emotionDetection
    ensures FlagsOf(Toggle(Toggle(s))) == FlagsOf(s)
  {
    SyncSamplingValid(FlagsOf(s), s.(emotionDetection := !s.emotionDetection));
  }

  /** Stopping releases every resource the page holds and drops both flags. */
  lemma StopReleasesAll(s: Session)
    requires Valid(s)
    ensures Valid(Stop(s))
    ensures Stop(s).liveStreams == {} && Stop(s).openSockets == {} && Stop(s).liveIntervals == {}
    ensures Stop(s).streamRef == None && Stop(s).socketRef == None && Stop(s).intervalRef == None
    ensures s.mounted ==> !Stop(s).isCameraActive && !Stop(s).isConnected
  {
    var t := s.(
      liveStreams := s.liveStreams - RefSet(s.streamRef), streamRef := None,
      openSockets := s.openSockets - RefSet(s.socketRef), socketRef := None,
      liveIntervals := s.liveIntervals - RefSet(s.intervalRef), intervalRef := None,
      isCameraActive := if s.mounted then false else s.isCameraActive,
      isConnected := if s.mounted then false else s.isConnected,
      videoAttached := if s.mounted then false else s.videoAttached);
    SyncSamplingValid(FlagsOf(s), t);
  }

  /** A second stop changes nothing. */
  lemma StopIdempotent(s: Session)
    ensures Stop(Stop(s)) == Stop(s)
  {
  }

  /** A page that is gone holds no stream, socket or interval. */
  lemma UnmountReleasesAll(s: Session)
    requires Valid(s) && s.mounted
    ensures Valid(Unmount(s))
    ensures Unmount(s).liveStreams == {} && Unmount(s).openSockets == {} && Unmount(s).liveIntervals == {}
  {
    StopReleasesAll(s);
  }

  /** A frame is posted only when every guard holds, a stream is attached to
      the video, at the video's size; the upload's outcome changes nothing. */
  lemma CaptureGuard(s: Session, hasVideo: bool, hasCanvas: bool, hasContext: bool,
                     width: nat, height: nat, outcome: UploadOutcome)
    ensures var t := Capture(s, hasVideo, hasCanvas, hasContext, width, height, outcome);
      t.uploads != s.uploads <==>
        hasVideo && hasCanvas && hasContext && s.isCameraActive && s.isConnected && s.videoAttached
        && width != 0 && height != 0
    ensures var t := Capture(s, hasVideo, hasCanvas, hasContext, width, height, outcome);
      t.uploads != s.uploads ==> t.uploads == s.uploads + [FrameUpload(s.lectureId, 1, width, height)]
    ensures Capture(s, hasVideo, hasCanvas, hasContext, width, height, Delivered)
         == Capture(s, hasVideo, hasCanvas, hasContext, width, height, Failed)
    ensures FlagsOf(Capture(s, hasVideo, hasCanvas, hasContext, width, height, outcome)) == FlagsOf(s)
  {
    var t := Capture(s, hasVideo, hasCanvas, hasContext, width, height, outcome);
    if t.uploads != s.uploads {
      assert |t.uploads| == |s.uploads| + 1;
    }
  }

  /** A video element without a stream: capturing changes nothing, whatever
      size the camera delivers, and neither does a tick of the interval. */
  lemma NoFramePosted(s: Session, hasVideo: bool, hasCanvas: bool, hasContext: bool,
                      width: nat, height: nat, outcome: UploadOutcome)
    requires !s.videoAttached
    ensures Capture(s, hasVideo, hasCanvas, hasContext, width, height, outcome) == s
    ensures IntervalTick(s, hasVideo, hasCanvas, hasContext, width, height, outcome) == s
  {
  }

  /** As written, one click on "Join Session" and a connect reach a state that
      samples, with a live interval, but whose video has no stream: no tick
      posts a frame, at any size. */
  lemma SingleJoinPostsNothing(lectureId: string, width: nat, height: nat, outcome: UploadOutcome)
    ensures var s := Connected(GrantAsWritten(Start(Initial(lectureId))), 1);
      Sampling(s) && s.intervalRef.Some? && s.intervalRef.value in s.liveIntervals
      && IntervalTick(s, true, true, true, width, height, outcome) == s
  {
    NoFramePosted(Connected(GrantAsWritten(Start(Initial(lectureId))), 1),
                  true, true, true, width, height, outcome);
  }

  /** As written, only a second grant while the camera is on attaches a
      stream: the two clicks on "Join Session" that leak the first stream are
      the one way frames get posted, from the second stream. */
  lemma DoubleGrantAttaches(lectureId: string)
    ensures !GrantAsWritten(Start(Start(Initial(lectureId)))).videoAttached
    ensures var s := Connected(GrantAsWritten(GrantAsWritten(Start(Start(Initial(lectureId))))), 3);
      s.videoAttached && s.streamRef == Some(2)
      && IntervalTick(s, true, true, true, 640, 480, Delivered).uploads == [FrameUpload(lectureId, 1, 640, 480)]
  {
  }

  /** With the stream handed over on mount, every tick of a sampling page
      with video, canvas and context posts exactly one frame, at the video's
      size. */
  lemma SamplingPostsFrame(s: Session, width: nat, height: nat, outcome: UploadOutcome)
    requires Valid(s) && Sampling(s) && width != 0 && height != 0
    ensures IntervalTick(s, true, true, true, width, height, outcome).uploads
         == s.uploads + [FrameUpload(s.lectureId, 1, width, height)]
  {
  }

  /** With the corrected grant, one click and a connect sample frames: the
      first tick posts one frame for the lecture, at the video's size. */
  lemma CorrectedJoinSamples(lectureId: string, width: nat, height: nat, outcome: UploadOutcome)
    requires width != 0 && height != 0
    ensures var s := Connected(Grant(Start(Initial(lectureId))), 1);
      Sampling(s) && s.videoAttached
      && IntervalTick(s, true, true, true, width, height, outcome).uploads
         == [FrameUpload(lectureId, 1, width, height)]
  {
    var s0 := Initial(lectureId);
    InitialValid(lectureId);
    StartKeepsValid(s0);
    GrantKeepsValid(Start(s0));
    ConnectedKeepsValid(Grant(Start(s0)), 1);
    SamplingPostsFrame(Connected(Grant(Start(s0)), 1), width, height, outcome);
  }

  // ---------------------------------------------------------------------------
  // The grant as written leaks

  /** A permission answer that arrives after the student has left leaves a
      live camera stream and an open socket behind, with the page gone and
      nothing left to release them. */
  lemma LateGrantLeaks(lectureId: string)
    ensures var s := GrantAsWritten(Unmount(Start(Initial(lectureId))));
      !s.mounted && s.liveStreams != {} && s.openSockets != {}
  {
    var s := GrantAsWritten(Unmount(Start(Initial(lectureId))));
    assert 0 in s.liveStreams && 1 in s.openSockets;
  }

  /** Two clicks on "Join Session" before the browser answers: the second
      grant overwrites the refs, so stopping afterwards still leaves the first
      stream and socket live. */
  lemma DoubleGrantLeaks(lectureId: string)
    ensures var s := Stop(GrantAsWritten(GrantAsWritten(Start(Start(Initial(lectureId))))));
      0 in s.liveStreams && 1 in s.openSockets
  {
  }

  /** With the corrected grant the same two sequences leave nothing live. */
  lemma CorrectedGrantReleases(lectureId: string)
    ensures Grant(Unmount(Start(Initial(lectureId)))).liveStreams == {}
    ensures Grant(Unmount(Start(Initial(lectureId)))).openSockets == {}
    ensures Stop(Grant(Grant(Start(Start(Initial(lectureId)))))).liveStreams == {}
    ensures Stop(Grant(Grant(Start(Start(Initial(lectureId)))))).openSockets == {}
  {
    var s0 := Initial(lectureId);
    InitialValid(lectureId);
    StartKeepsValid(s0);
    UnmountReleasesAll(Start(s0));
    GrantKeepsValid(Unmount(Start(s0)));
    StartKeepsValid(Start(s0));
    var s2 := Start(Start(s0));
    GrantKeepsValid(s2);
    GrantKeepsValid(Grant(s2));
    StopReleasesAll(Grant(Grant(s2)));
  }

  // ---------------------------------------------------------------------------
  // The page

  class JoinPage {
    const lectureId: string
    var emotionDetection: bool
    var isCameraActive: bool
    var isConnected: bool
    var permissionError: Option<string>
    var streamRef: Option<nat>
    var socketRef: Option<nat>
    var intervalRef: Option<nat>
    var liveStreams: set<nat>
    var openSockets: set<nat>
    var liveIntervals: set<nat>
    var nextId: nat
    var pending: nat
    var mounted: bool
    var sent: seq<JoinMessage>
    var uploads: seq<FrameUpload>
    var videoAttached: bool

    function State(): Session
      reads this
    {
      Session(lectureId, emotionDetection, isCameraActive, isConnected, permissionError,
        streamRef, socketRef, intervalRef, liveStreams, openSockets, liveIntervals,
        nextId, pending, mounted, sent, uploads, videoAttached)
    }

    constructor (lectureId: string)
      ensures State() == Initial(lectureId)
    {
      this.lectureId := lectureId;
      emotionDetection := true;
      isCameraActive := false;
      isConnected := false;
      permissionError := None;
      streamRef := None;
      socketRef := None;
      intervalRef := None;
      liveStreams := {};
      openSockets := {};
      liveIntervals := {};
      nextId := 0;
      pending := 0;
      mounted := true;
      sent := [];
      uploads := [];
      videoAttached := false;
    }

    /** The sampling effect after a render whose flags were `prev`. */
    method RunSamplingEffect(prev: Flags)
      modifies this
      ensures State() == SyncSampling(prev, old(State()))
    {
      if prev != Flags(isCameraActive, emotionDetection, isConnected) {
        // the previous run's cleanup
        var cleared := liveIntervals - RefSet(intervalRef);
        if isCameraActive && emotionDetection && isConnected {
          intervalRef, liveIntervals, nextId := Some(nextId), cleared + {nextId}, nextId + 1;
        } else {
          intervalRef, liveIntervals := None, cleared;
        }
      }
    }

    method StartSession()
      modifies this
      ensures State() == Start(old(State()))
    {
      permissionError := None;
      pending := pending + 1;
    }

    /** The stream goes into its ref and a socket is opened into the socket
        ref. */
    method AcquireMedia()
      requires pending > 0
      modifies this
      ensures streamRef == Some(old(nextId)) && liveStreams == old(liveStreams) + {old(nextId)}
      ensures socketRef == Some(old(nextId) + 1) && openSockets == old(openSockets) + {old(nextId) + 1}
      ensures isCameraActive && nextId == old(nextId) + 2 && pending == old(pending) - 1
      ensures videoAttached == (old(videoAttached) || (old(mounted) && old(isCameraActive)))
      ensures emotionDetection == old(emotionDetection) && isConnected == old(isConnected)
      ensures permissionError == old(permissionError) && mounted == old(mounted)
      ensures intervalRef == old(intervalRef) && liveIntervals == old(liveIntervals)
      ensures sent == old(sent) && uploads == old(uploads)
    {
      TakeStream();
      OpenSocket();
    }

    /** The granted stream goes into its ref and, if the video element is on
        screen, into the element; the camera is marked active. */
    method TakeStream()
      requires pending > 0
      modifies this
      ensures streamRef == Some(old(nextId)) && liveStreams == old(liveStreams) + {old(nextId)}
      ensures isCameraActive && nextId == old(nextId) + 1 && pending == old(pending) - 1
      ensures videoAttached == (old(videoAttached) || (old(mounted) && old(isCameraActive)))
      ensures emotionDetection == old(emotionDetection) && isConnected == old(isConnected)
      ensures permissionError == old(permissionError) && mounted == old(mounted)
      ensures intervalRef == old(intervalRef) && liveIntervals == old(liveIntervals)
      ensures socketRef == old(socketRef) && openSockets == old(openSockets)
      ensures sent == old(sent) && uploads == old(uploads)
    {
      pending, videoAttached := pending - 1, videoAttached || (mounted && isCameraActive);
      streamRef, liveStreams, isCameraActive, nextId := Some(nextId), liveStreams + {nextId}, true, nextId + 1;
    }

    /** A socket to the signalling server is opened into its ref. */
    method OpenSocket()
      modifies this
      ensures socketRef == Some(old(nextId)) && openSockets == old(openSockets) + {old(nextId)}
      ensures nextId == old(nextId) + 1
      ensures streamRef == old(streamRef) && liveStreams == old(liveStreams)
      ensures isCameraActive == old(isCameraActive) && pending == old(pending)
      ensures videoAttached == old(videoAttached)
      ensures emotionDetection == old(emotionDetection) && isConnected == old(isConnected)
      ensures permissionError == old(permissionError) && mounted == old(mounted)
      ensures intervalRef == old(intervalRef) && liveIntervals == old(liveIntervals)
      ensures sent == old(sent) && uploads == old(uploads)
    {
      socketRef, openSockets, nextId := Some(nextId), openSockets + {nextId}, nextId + 1;
    }

    method MediaGranted()
      requires pending > 0
      modifies this
      ensures State() == Grant(old(State()))
    {
      if !mounted || streamRef.Some? {
        pending := pending - 1;
        return;
      }
      var prev := Flags(isCameraActive, emotionDetection, isConnected);
      AcquireMedia();
      RunSamplingEffect(prev);
      VideoMounted();
    }

    /** The video element mounts and is handed the stream the ref holds. */
    method VideoMounted()
      modifies this
      ensures State() == AttachStream(old(State()))
    {
      if mounted && isCameraActive && streamRef.Some? {
        videoAttached := true;
      }
    }

    method MediaDenied()
      requires pending > 0
      modifies this
      ensures State() == Deny(old(State()))
    {
      var prev := Flags(isCameraActive, emotionDetection, isConnected);
      ghost var s := State();
      pending := pending - 1;
      if mounted {
        permissionError, isCameraActive, videoAttached := Some(PermissionDenied), false, false;
      }
      assert State() == s.(
        pending := s.pending - 1,
        permissionError := if s.mounted then Some(PermissionDenied) else s.permissionError,
        isCameraActive := if s.mounted then false else s.isCameraActive,
        videoAttached := if s.mounted then false else s.videoAttached);
      RunSamplingEffect(prev);
    }

    method OnConnect(k: nat)
      modifies this
      ensures State() == Connected(old(State()), k)
    {
      if k in openSockets {
        var prev := Flags(isCameraActive, emotionDetection, isConnected);
        if mounted {
          isConnected := true;
        }
        sent := sent + [JoinMessage(lectureId, "student")];
        RunSamplingEffect(prev);
      }
    }

    method OnDisconnect(k: nat)
      modifies this
      ensures State() == Lost(old(State()), k)
    {
      if k in openSockets {
        var prev := Flags(isCameraActive, emotionDetection, isConnected);
        if mounted {
          isConnected := false;
        }
        RunSamplingEffect(prev);
      }
    }

    method OnConnectError(k: nat)
      modifies this
      ensures State() == Lost(old(State()), k)
    {
      OnDisconnect(k);
    }

    method ToggleDetection()
      modifies this
      ensures State() == Toggle(old(State()))
    {
      var prev := Flags(isCameraActive, emotionDetection, isConnected);
      emotionDetection := !emotionDetection;
      RunSamplingEffect(prev);
    }

    /** Each resource a ref holds is released and the ref emptied. */
    method ReleaseRefs()
      modifies this
      ensures liveStreams == old(liveStreams) - RefSet(old(streamRef)) && streamRef == None
      ensures openSockets == old(openSockets) - RefSet(old(socketRef)) && socketRef == None
      ensures liveIntervals == old(liveIntervals) - RefSet(old(intervalRef)) && intervalRef == None
      ensures emotionDetection == old(emotionDetection) && isConnected == old(isConnected)
      ensures isCameraActive == old(isCameraActive) && permissionError == old(permissionError)
      ensures nextId == old(nextId) && pending == old(pending) && mounted == old(mounted)
      ensures sent == old(sent) && uploads == old(uploads) && videoAttached == old(videoAttached)
    {
      if streamRef.Some? {
        liveStreams := liveStreams - {streamRef.value};
        streamRef := None;
      }
      if socketRef.Some? {
        openSockets := openSockets - {socketRef.value};
        socketRef := None;
      }
      if intervalRef.Some? {
        liveIntervals := liveIntervals - {intervalRef.value};
        intervalRef := None;
      }
    }

    method StopSession()
      modifies this
      ensures State() == Stop(old(State()))
    {
      var prev := Flags(isCameraActive, emotionDetection, isConnected);
      ReleaseRefs();
      if mounted {
        isCameraActive, isConnected, videoAttached := false, false, false;
      }
      RunSamplingEffect(prev);
    }

    /** "Leave Session": stop, then go to the student dashboard. */
    method LeaveSession() returns (target: string)
      modifies this
      ensures State() == Stop(old(State())) && target == LeaveTarget
    {
      StopSession();
      target := LeaveTarget;
    }

    method UnmountPage()
      modifies this
      ensures State() == Unmount(old(State()))
    {
      StopSession();
      mounted := false;
    }

    method IntervalFired(hasVideo: bool, hasCanvas: bool, hasContext: bool,
                         width: nat, height: nat, outcome: UploadOutcome)
      modifies this
      ensures State() == IntervalTick(old(State()), hasVideo, hasCanvas, hasContext, width, height, outcome)
    {
      if intervalRef.Some? && intervalRef.value in liveIntervals
         && hasVideo && hasCanvas && isCameraActive && isConnected
         && videoAttached && width != 0 && height != 0 && hasContext {
        uploads := uploads + [FrameUpload(lectureId, 1, width, height)];
      }
    }
  }
}
