/** The per-frame controller of HelloArActivity: the bounded single-tap queue
    filled by the gesture listener, the frame step (poll one tap, hit-test the
    two tiles while the camera is tracking, stop on a paused camera, create
    the one pinboard anchor, refresh the matrix of every tracked anchor) and
    the flag resets of the pause/resume lifecycle. ARCore (the session, the
    camera, anchors and their poses) is seen only through the values of a
    FrameInput. */
module FrameLoop {
  import opened Geometry
  import opened HitTest

  /** Capacity of the single-tap queue. */
  const TapQueueCapacity: nat := 16

  datatype Option<T> = None | Some(value: T)

  /** ARCore's tracking state of the camera or of an anchor. */
  datatype TrackingState = Tracking | Paused | Stopped

  /** An ARCore anchor, seen only through its identity. */
  datatype Anchor = Anchor(id: nat)

  /** The fragment a tap opens: the news tile, the funny tile, or none. */
  datatype TileAction = NoAction | OpenNewsTile | OpenFunnyTile

  /** What one call of the frame step learns from its collaborators.
      NoSession: the session was never created. UpdateFailed: Session.update
      threw. Frame: the camera's tracking state; the view size used to
      normalise taps; the two tiles as the hit test reads them; the anchor
      Session.createAnchor returns for the pinboard pose, or None when it
      throws; the tracking state and the pose matrix of every anchor in this
      frame. */
  datatype FrameInput =
    | NoSession
    | UpdateFailed
    | Frame(camera: TrackingState,
            viewWidth: real, viewHeight: real,
            firstTile: RenderObject, secondTile: RenderObject,
            createdAnchor: Option<Anchor>,
            anchorTracking: Anchor -> TrackingState,
            anchorPose: Anchor -> Mat4)

  /** What one frame step did: the tap it polled, how many tiles it hit-tested,
      the fragment it opened, and the anchors whose tiles it drew, in order. */
  datatype FrameOutcome = FrameOutcome(polled: Option<Tap>, tilesTested: nat, action: TileAction, drawn: seq<Anchor>)

  /** The anchors, in list order, whose tracking state is Tracking. */
  function TrackedAnchors(anchors: seq<Anchor>, tracking: Anchor -> TrackingState): (r: seq<Anchor>)
    ensures |r| <= |anchors|
    ensures forall a :: a in r <==> a in anchors && tracking(a) == Tracking
  {
    if anchors == [] then []
    else
      var init, last := anchors[..|anchors| - 1], anchors[|anchors| - 1];
      assert anchors == init + [last];
      TrackedAnchors(init, tracking) + (if tracking(last) == Tracking then [last] else [])
  }

  /** checkIfHit: whether a tap hits a tile (the toast it shows is left out). */
  method CheckIfHit(renderer: RenderObject, event: Tap, width: real, height: real) returns (hit: bool)
    requires width > 0.0 && height > 0.0
    ensures hit <==> ObjectContains(renderer, ConvertToFrame(event.x, event.y, width, height))
  {
    ghost var firstHit;
    hit, firstHit := IsMvpHit(renderer, event, width, height);
  }

  /** What handling a polled tap must do: nothing unless there is a tap and
      the camera is tracking; then the news tile is tested first and opened on
      a hit, and only on a miss is the funny tile tested and, on a hit, opened. */
  ghost predicate TapDispatched(tap: Option<Tap>, input: FrameInput, tested: nat, action: TileAction)
    requires input.Frame? && input.viewWidth > 0.0 && input.viewHeight > 0.0
  {
    if tap.Some? && input.camera == Tracking then
      var q := ConvertToFrame(tap.value.x, tap.value.y, input.viewWidth, input.viewHeight);
      if ObjectContains(input.firstTile, q) then tested == 1 && action == OpenNewsTile
      else tested == 2 && action == (if ObjectContains(input.secondTile, q) then OpenFunnyTile else NoAction)
    else
      tested == 0 && action == NoAction
  }

  /** The tap handling of onDrawFrame: a tap polled while the camera is not
      tracking is discarded without a hit test; otherwise at most one fragment
      is opened, the news tile taking priority over the funny tile. */
  method DispatchTap(tap: Option<Tap>, input: FrameInput) returns (tested: nat, action: TileAction)
    requires input.Frame? && input.viewWidth > 0.0 && input.viewHeight > 0.0
    ensures TapDispatched(tap, input, tested, action)
    ensures tested <= 2
  {
    tested, action := 0, NoAction;
    if tap.Some? && input.camera == Tracking {
      var hitFirst := CheckIfHit(input.firstTile, tap.value, input.viewWidth, input.viewHeight);
      tested := 1;
      if hitFirst {
        action := OpenNewsTile;
      } else {
        var hitSecond := CheckIfHit(input.secondTile, tap.value, input.viewWidth, input.viewHeight);
        tested := 2;
        if hitSecond {
          action := OpenFunnyTile;
        }
      }
    }
  }

  class Controller {
    var queuedSingleTaps: seq<Tap>
    var isInitialPositionReceived: bool
    var initialPinboardAnchor: Option<Anchor>
    var anchors: seq<Anchor>
    var anchorMatrix: Mat4

    /** The queue stays within its capacity, the anchor list holds exactly the
        pinboard anchor once it exists, and the flag is only ever set together
        with that anchor. */
    ghost predicate Valid()
      reads this
    {
      && |queuedSingleTaps| <= TapQueueCapacity
      && anchors == (if initialPinboardAnchor.None? then [] else [initialPinboardAnchor.value])
      && (isInitialPositionReceived ==> initialPinboardAnchor.Some?)
    }

    /** The field initialisers of the activity. */
    constructor ()
      ensures Valid()
      ensures queuedSingleTaps == [] && anchors == []
      ensures !isInitialPositionReceived && initialPinboardAnchor == None
      ensures anchorMatrix == seq(16, _ => 0.0)
    {
      queuedSingleTaps := [];
      isInitialPositionReceived := false;
      initialPinboardAnchor := None;
      anchors := [];
      anchorMatrix := seq(16, _ => 0.0);
    }

    /** onSingleTap: offer the tap to the queue; a tap offered to a full queue
        is dropped. Nothing else changes. */
    method OnSingleTap(e: Tap)
      requires Valid()
      modifies this`queuedSingleTaps
      ensures Valid()
      ensures queuedSingleTaps ==
        if |old(queuedSingleTaps)| < TapQueueCapacity then old(queuedSingleTaps) + [e] else old(queuedSingleTaps)
    {
      if |queuedSingleTaps| < TapQueueCapacity {
        queuedSingleTaps := queuedSingleTaps + [e];
      }
    }

    /** onResume: with camera permission the flag is cleared; without it the
        permission is requested and nothing changes. */
    method OnResume(hasCameraPermission: bool)
      requires Valid()
      modifies this`isInitialPositionReceived
      ensures Valid()
      ensures isInitialPositionReceived == (old(isInitialPositionReceived) && !hasCameraPermission)
    {
      if hasCameraPermission {
        isInitialPositionReceived := false;
      }
    }

    /** onPause: the flag is cleared; the pinboard anchor and the anchor list
        are kept. */
    method OnPause()
      requires Valid()
      modifies this`isInitialPositionReceived
      ensures Valid()
      ensures !isInitialPositionReceived
    {
      isInitialPositionReceived := false;
    }

    /** mQueuedSingleTaps.poll(): remove and return the oldest queued tap, or
        None when the queue is empty. */
    method PollTap() returns (tap: Option<Tap>)
      requires Valid()
      modifies this`queuedSingleTaps
      ensures Valid()
      ensures tap == (if old(queuedSingleTaps) == [] then None else Some(old(queuedSingleTaps)[0]))
      ensures queuedSingleTaps == (if old(queuedSingleTaps) == [] then [] else old(queuedSingleTaps)[1..])
    {
      tap := None;
      if queuedSingleTaps != [] {
        tap := Some(queuedSingleTaps[0]);
        queuedSingleTaps := queuedSingleTaps[1..];
      }
    }

    /** The loop over mAnchors: every anchor whose state is Tracking, in list
        order, has its pose matrix copied into the anchor matrix and its tiles
        drawn; the others are skipped and kept. */
    method DrawTrackedAnchors(tracking: Anchor -> TrackingState, pose: Anchor -> Mat4)
        returns (drawn: seq<Anchor>)
      modifies this`anchorMatrix
      ensures drawn == TrackedAnchors(anchors, tracking)
      ensures anchorMatrix == if drawn == [] then old(anchorMatrix) else pose(drawn[|drawn| - 1])
    {
      drawn := [];
      var i := 0;
      while i < |anchors|
        invariant i <= |anchors|
        invariant drawn == TrackedAnchors(anchors[..i], tracking)
        invariant anchorMatrix == if drawn == [] then old(anchorMatrix) else pose(drawn[|drawn| - 1])
      {
        var anchor := anchors[i];
        assert anchors[..i + 1][..i] == anchors[..i];
        if tracking(anchor) == Tracking {
          anchorMatrix := pose(anchor);
          drawn := drawn + [anchor];
        }
        i := i + 1;
      }
      assert anchors[..i] == anchors;
    }

    /** onDrawFrame. Without a session, or when Session.update throws, nothing
        happens. Otherwise the oldest queued tap (if any) is polled and
        dispatched (DispatchTap). A paused camera ends the step there. Then,
        while no pinboard anchor exists and the flag is clear, the anchor
        Session.createAnchor returns is appended and recorded and the flag set
        (if createAnchor throws, the step ends). Finally the tracked anchors
        are drawn. */
    method OnDrawFrame(input: FrameInput) returns (outcome: FrameOutcome)
      requires Valid()
      requires input.Frame? ==> input.viewWidth > 0.0 && input.viewHeight > 0.0
      modifies this
      ensures Valid()
      ensures old(anchors) <= anchors
      ensures !input.Frame? ==>
        && outcome == FrameOutcome(None, 0, NoAction, [])
        && queuedSingleTaps == old(queuedSingleTaps)
      ensures input.Frame? ==>
        && queuedSingleTaps == (if old(queuedSingleTaps) == [] then [] else old(queuedSingleTaps)[1..])
        && outcome.polled == (if old(queuedSingleTaps) == [] then None else Some(old(queuedSingleTaps)[0]))
        && TapDispatched(outcome.polled, input, outcome.tilesTested, outcome.action)
      ensures
        var gate := input.Frame? && input.camera != Paused
                    && !old(isInitialPositionReceived) && old(initialPinboardAnchor).None?;
        if gate && input.createdAnchor.Some? then
          && anchors == old(anchors) + [input.createdAnchor.value]
          && initialPinboardAnchor == input.createdAnchor
          && isInitialPositionReceived
        else
          && anchors == old(anchors)
          && initialPinboardAnchor == old(initialPinboardAnchor)
          && isInitialPositionReceived == old(isInitialPositionReceived)
      ensures
        var gate := input.Frame? && input.camera != Paused
                    && !old(isInitialPositionReceived) && old(initialPinboardAnchor).None?;
        if input.Frame? && input.camera != Paused && !(gate && input.createdAnchor.None?) then
          && outcome.drawn == TrackedAnchors(anchors, input.anchorTracking)
          && anchorMatrix == (if outcome.drawn == [] then old(anchorMatrix)
                              else input.anchorPose(outcome.drawn[|outcome.drawn| - 1]))
        else
          outcome.drawn == [] && anchorMatrix == old(anchorMatrix)
    {
      outcome := FrameOutcome(None, 0, NoAction, []);
      if !input.Frame? {
        return;
      }

      // Handle at most one tap per frame.
      var tap := PollTap();
      var tested, action := DispatchTap(tap, input);
      outcome := FrameOutcome(tap, tested, action, []);

      // If not tracking, don't draw 3d objects.
      if input.camera == Paused {
        return;
      }

      if !isInitialPositionReceived && initialPinboardAnchor.None? {
        if input.createdAnchor.None? {
          return;
        }
        var fixAnchor := input.createdAnchor.value;
        anchors := anchors + [fixAnchor];
        initialPinboardAnchor := Some(fixAnchor);
        isInitialPositionReceived := true;
      }

      var drawn := DrawTrackedAnchors(input.anchorTracking, input.anchorPose);
      outcome := outcome.(drawn := drawn);
    }
  }

  /** At most one anchor ever exists: the list is empty or holds exactly the
      pinboard anchor. */
  lemma AtMostOneAnchor(c: Controller)
    requires c.Valid()
    ensures |c.anchors| <= 1
    ensures c.anchors != [] ==> c.initialPinboardAnchor == Some(c.anchors[0])
  {
  }

  /** The creation gate opens exactly when no anchor has been created yet, so
      clearing the flag in onPause or onResume can never open it again. */
  lemma CreationGateIsFirstAnchorOnly(c: Controller)
    requires c.Valid()
    ensures (!c.isInitialPositionReceived && c.initialPinboardAnchor.None?) <==> c.anchors == []
  {
  }

  /** A lifetime of the activity: created, resumed, one frame, paused,
      resumed, another frame. Both frames are past the paused-camera return
      and createAnchor would succeed in both, yet only the first anchor is
      ever created: the pinboard anchor is never cleared. */
  method PauseResumeCreatesNoSecondAnchor(first: FrameInput, second: FrameInput)
      returns (finalAnchors: seq<Anchor>)
    requires first.Frame? && first.camera != Paused && first.createdAnchor.Some?
    requires first.viewWidth > 0.0 && first.viewHeight > 0.0
    requires second.Frame? && second.camera != Paused && second.createdAnchor.Some?
    requires second.viewWidth > 0.0 && second.viewHeight > 0.0
    ensures finalAnchors == [first.createdAnchor.value]
  {
    var activity := new Controller();
    activity.OnResume(true);
    var _ := activity.OnDrawFrame(first);
    assert activity.anchors == [first.createdAnchor.value];
    activity.OnPause();
    activity.OnResume(true);
    var _ := activity.OnDrawFrame(second);
    finalAnchors := activity.anchors;
  }
}
