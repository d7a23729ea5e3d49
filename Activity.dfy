/**
 * MainActivity with the grant flow it inherits from BaseActivity: the mutable
 * fields the SDK callbacks and the lifecycle update, the views they set, and a
 * log of every call made on the platform, a view or the vision SDK.
 */
module Activity {

  import opened Wrappers
  import opened Resources
  import opened Permissions
  import opened SpeedLimits
  import opened Detections
  import opened VisionLifecycle

  /** A call the activity issues, recorded in issue order. */
  datatype Call =
    | InitViews
    | RequestPermissions(permissions: seq<Permission>, requestCode: int)
    | SetSpeedSignImage(image: Drawable)
    | SetSpeedTextColor(color: Color)
    | SetSpeedText(value: int)
    | ShowSpeedAlert
    | SetDetectionsImage(image: Drawable)
    | Sdk(op: SdkOp)

  function SdkCalls(ops: seq<SdkOp>): seq<Call>
  {
    seq(|ops|, i requires 0 <= i < |ops| => Sdk(ops[i]))
  }

  function ImageCalls(icons: seq<Drawable>): seq<Call>
  {
    seq(|icons|, i requires 0 <= i < |icons| => SetDetectionsImage(icons[i]))
  }

  /**
   * One step of startVisionManager's try block: the j-th start call extends
   * the log; if it threw, the log holds exactly the attempted calls, and if
   * not, the first j calls all returned.
   */
  lemma StartStep(before: seq<Call>, calls: seq<Call>, j: nat, throwing: set<SdkOp>, threw: bool)
    requires 0 < j <= |StartSequence|
    requires Completes(StartSequence[..j - 1], throwing)
    requires calls == before + SdkCalls(StartSequence[..j - 1]) + [Sdk(StartSequence[j - 1])]
    requires threw == (StartSequence[j - 1] in throwing)
    ensures calls == before + SdkCalls(StartSequence[..j])
    ensures threw ==> calls == before + SdkCalls(Attempted(StartSequence, throwing))
    ensures !threw ==> Completes(StartSequence[..j], throwing)
  {
    assert SdkCalls(StartSequence[..j]) == SdkCalls(StartSequence[..j - 1]) + [Sdk(StartSequence[j - 1])];
    if threw {
      AttemptedStopsAtFirstThrow(StartSequence, throwing, j - 1);
    } else {
      assert StartSequence[..j] == StartSequence[..j - 1] + [StartSequence[j - 1]];
    }
  }

  /** The speed sign shows nothing yet, or one variant's image together with that variant's colour. */
  predicate SignMatchesColor(image: Option<Drawable>, color: Option<Color>)
  {
    || (image == None && color == None)
    || (image == Some(Overspeeding.ImageRes()) && color == Some(Overspeeding.TextColor()))
    || (image == Some(NormalSpeed.ImageRes()) && color == Some(NormalSpeed.TextColor()))
  }

  class MainActivity {
    var maxAllowedSpeed: real
    var visionManagerWasInit: bool

    // View state; None means the layout's own initial content.
    var speedSignImage: Option<Drawable>
    var speedTextColor: Option<Color>
    var speedText: Option<int>
    var speedAlertVisible: bool
    var detectionsImage: Option<Drawable>

    ghost var calls: seq<Call>

    /**
     * While a limit is known the label shows it and the alert is visible; the
     * sign's image and colour belong to one variant; the detections view shows
     * a detection icon.
     */
    ghost predicate Valid()
      reads this
    {
      && (maxAllowedSpeed != NoLimit ==> speedText == Some(TruncateToInt(maxAllowedSpeed)) && speedAlertVisible)
      && SignMatchesColor(speedSignImage, speedTextColor)
      && (detectionsImage.Some? ==> IconClass(detectionsImage.value).Some?)
    }

    constructor ()
      ensures Valid()
      ensures maxAllowedSpeed == NoLimit && !visionManagerWasInit
      ensures speedSignImage == None && speedTextColor == None && speedText == None
      ensures !speedAlertVisible && detectionsImage == None
      ensures calls == []
    {
      maxAllowedSpeed := NoLimit;
      visionManagerWasInit := false;
      speedSignImage, speedTextColor, speedText := None, None, None;
      speedAlertVisible := false;
      detectionsImage := None;
      calls := [];
    }

    // ---- BaseActivity: the grant flow ----

    /**
     * onCreate: the views are set up first; then the vision pipeline starts if
     * every required permission is satisfied, and the permissions are
     * requested otherwise.
     */
    method OnCreate(platform: Platform, throwing: set<SdkOp>)
      requires Valid()
      modifies this`visionManagerWasInit, this`calls
      ensures Valid()
      ensures var required := RequiredPermissions(platform.lookup);
              if AllSatisfied(required, platform.granted, platform.sdkInt) then
                && calls == old(calls) + [InitViews] + StartCalls(old(visionManagerWasInit), throwing)
                && visionManagerWasInit == StartedAfter(old(visionManagerWasInit), throwing)
              else
                && calls == old(calls) + [InitViews, RequestPermissions(required, PermissionsRequestCode)]
                && visionManagerWasInit == old(visionManagerWasInit)
    {
      calls := calls + [InitViews];
      var ok := AllPermissionsGranted(RequiredPermissions(platform.lookup), platform.granted, platform.sdkInt);
      if !ok {
        calls := calls + [RequestPermissions(RequiredPermissions(platform.lookup), PermissionsRequestCode)];
      } else {
        OnPermissionsGranted(throwing);
      }
    }

    /**
     * onRequestPermissionsResult: the grant results passed in are ignored; the
     * permissions are checked afresh and the pipeline starts only if all are
     * satisfied and the answer is to the activity's own request code.
     */
    method OnRequestPermissionsResult(requestCode: int, platform: Platform, throwing: set<SdkOp>)
      requires Valid()
      modifies this`visionManagerWasInit, this`calls
      ensures Valid()
      ensures if AllSatisfied(RequiredPermissions(platform.lookup), platform.granted, platform.sdkInt)
                 && requestCode == PermissionsRequestCode then
                && calls == old(calls) + StartCalls(old(visionManagerWasInit), throwing)
                && visionManagerWasInit == StartedAfter(old(visionManagerWasInit), throwing)
              else
                calls == old(calls) && visionManagerWasInit == old(visionManagerWasInit)
    {
      var ok := AllPermissionsGranted(RequiredPermissions(platform.lookup), platform.granted, platform.sdkInt);
      if ok && requestCode == PermissionsRequestCode {
        OnPermissionsGranted(throwing);
      }
    }

    // ---- MainActivity: the vision manager lifecycle ----

    /** The SDK calls a start issues: none once started, else the attempted prefix. */
    static function StartCalls(wasInit: bool, throwing: set<SdkOp>): seq<Call>
    {
      if wasInit then [] else SdkCalls(Attempted(StartSequence, throwing))
    }

    /** The flag after a start: it becomes true only when every start call returns. */
    static predicate StartedAfter(wasInit: bool, throwing: set<SdkOp>)
    {
      wasInit || Completes(StartSequence, throwing)
    }

    method OnPermissionsGranted(throwing: set<SdkOp>)
      requires Valid()
      modifies this`visionManagerWasInit, this`calls
      ensures Valid()
      ensures calls == old(calls) + StartCalls(old(visionManagerWasInit), throwing)
      ensures visionManagerWasInit == StartedAfter(old(visionManagerWasInit), throwing)
    {
      StartVisionManager(throwing);
    }

    method OnStart(throwing: set<SdkOp>)
      requires Valid()
      modifies this`visionManagerWasInit, this`calls
      ensures Valid()
      ensures calls == old(calls) + StartCalls(old(visionManagerWasInit), throwing)
      ensures visionManagerWasInit == StartedAfter(old(visionManagerWasInit), throwing)
    {
      StartVisionManager(throwing);
    }

    method OnStop()
      requires Valid()
      modifies this`visionManagerWasInit, this`calls
      ensures Valid()
      ensures !visionManagerWasInit
      ensures calls == old(calls) + (if old(visionManagerWasInit) then SdkCalls(StopSequence) else [])
    {
      StopVisionManager();
    }

    /** Issues one SDK call; reports whether it threw. */
    method Issue(op: SdkOp, throwing: set<SdkOp>) returns (threw: bool)
      modifies this`calls
      ensures calls == old(calls) + [Sdk(op)]
      ensures threw == (op in throwing)
    {
      calls := calls + [Sdk(op)];
      threw := op in throwing;
    }

    /**
     * startVisionManager: does nothing once started; otherwise issues the start
     * calls inside one try block, and sets the flag only after the last call.
     * An exception ends the block and is swallowed, leaving the flag false.
     */
    method StartVisionManager(throwing: set<SdkOp>)
      requires Valid()
      modifies this`visionManagerWasInit, this`calls
      ensures Valid()
      ensures old(visionManagerWasInit) ==> visionManagerWasInit && calls == old(calls)
      ensures !old(visionManagerWasInit) ==>
        && calls == old(calls) + SdkCalls(Attempted(StartSequence, throwing))
        && visionManagerWasInit == Completes(StartSequence, throwing)
    {
      if !visionManagerWasInit {
        ghost var before := calls;
        var threw := Issue(VisionManagerCreate, throwing);
        StartStep(before, calls, 1, throwing, threw);
        if threw { return; }
        threw := Issue(SetVisionManagerOnView, throwing);
        StartStep(before, calls, 2, throwing, threw);
        if threw { return; }
        threw := Issue(VisionManagerStart, throwing);
        StartStep(before, calls, 3, throwing, threw);
        if threw { return; }
        threw := Issue(SetVisionEventsListener, throwing);
        StartStep(before, calls, 4, throwing, threw);
        if threw { return; }
        threw := Issue(VisionSafetyManagerCreate, throwing);
        StartStep(before, calls, 5, throwing, threw);
        if threw { return; }
        threw := Issue(SetVisionSafetyListener, throwing);
        StartStep(before, calls, 6, throwing, threw);
        if threw { return; }
        visionManagerWasInit := true;
        assert StartSequence[..|StartSequence|] == StartSequence;
      }
    }

    /** stopVisionManager: tears down in a fixed order once started; a no-op otherwise. */
    method StopVisionManager()
      requires Valid()
      modifies this`visionManagerWasInit, this`calls
      ensures Valid()
      ensures !visionManagerWasInit
      ensures calls == old(calls) + (if old(visionManagerWasInit) then SdkCalls(StopSequence) else [])
    {
      if visionManagerWasInit {
        ghost var before := calls;
        calls := calls + [Sdk(VisionSafetyManagerDestroy)];
        calls := calls + [Sdk(VisionManagerStop)];
        calls := calls + [Sdk(VisionManagerDestroy)];
        visionManagerWasInit := false;
        assert calls == before + SdkCalls(StopSequence);
      }
    }

    // ---- MainActivity: SDK callbacks ----

    /**
     * onRoadRestrictionsUpdated: always stores the car's maximum speed; a known
     * limit is written, truncated to an Int, into the label and shows the alert.
     */
    method OnRoadRestrictionsUpdated(carMax: real)
      requires Valid()
      modifies this`maxAllowedSpeed, this`speedText, this`speedAlertVisible, this`calls
      ensures Valid()
      ensures maxAllowedSpeed == carMax
      ensures carMax == NoLimit ==>
        calls == old(calls) && speedText == old(speedText) && speedAlertVisible == old(speedAlertVisible)
      ensures carMax != NoLimit ==>
        && speedText == Some(TruncateToInt(carMax)) && speedAlertVisible
        && calls == old(calls) + [SetSpeedText(TruncateToInt(carMax)), ShowSpeedAlert]
    {
      maxAllowedSpeed := carMax;
      if maxAllowedSpeed != NoLimit {
        speedText := Some(TruncateToInt(maxAllowedSpeed));
        speedAlertVisible := true;
        calls := calls + [SetSpeedText(TruncateToInt(maxAllowedSpeed)), ShowSpeedAlert];
      }
    }

    /**
     * onVehicleStateUpdated: with no known limit nothing happens; otherwise the
     * sign shows the image and text colour of the variant the speed falls in.
     */
    method OnVehicleStateUpdated(speed: real)
      requires Valid()
      modifies this`speedSignImage, this`speedTextColor, this`calls
      ensures Valid()
      ensures maxAllowedSpeed == NoLimit ==>
        calls == old(calls) && speedSignImage == old(speedSignImage) && speedTextColor == old(speedTextColor)
      ensures maxAllowedSpeed != NoLimit ==>
        var state := Classify(speed, maxAllowedSpeed);
        && speedSignImage == Some(state.ImageRes()) && speedTextColor == Some(state.TextColor())
        && calls == old(calls) + [SetSpeedSignImage(state.ImageRes()), SetSpeedTextColor(state.TextColor())]
    {
      if maxAllowedSpeed == NoLimit {
        return;
      }
      var currentSpeedState := Classify(speed, maxAllowedSpeed);
      speedSignImage := Some(currentSpeedState.ImageRes());
      speedTextColor := Some(currentSpeedState.TextColor());
      calls := calls + [SetSpeedSignImage(currentSpeedState.ImageRes()), SetSpeedTextColor(currentSpeedState.TextColor())];
    }

    /** Posts one icon to the detections view. */
    method ShowDetectionIcon(icon: Drawable)
      modifies this`detectionsImage, this`calls
      ensures detectionsImage == Some(icon)
      ensures calls == old(calls) + [SetDetectionsImage(icon)]
    {
      detectionsImage := Some(icon);
      calls := calls + [SetDetectionsImage(icon)];
    }

    /**
     * onFrameDetectionsUpdated: each confident detection of a tracked class,
     * in list order, posts its icon; the view ends up showing the icon of the
     * last one, or keeps its icon when none qualifies.
     */
    method OnFrameDetectionsUpdated(detections: seq<Detection>)
      requires Valid()
      modifies this`detectionsImage, this`calls
      ensures Valid()
      ensures calls == old(calls) + ImageCalls(PostedIcons(detections))
      ensures detectionsImage ==
        match LastQualifying(detections)
        case None => old(detectionsImage)
        case Some(i) => ClassIcon(detections[i].detectionClass)
    {
      for i := 0 to |detections|
        invariant Valid()
        invariant calls == old(calls) + ImageCalls(PostedIcons(detections[..i]))
        invariant detectionsImage ==
          match LastQualifying(detections[..i])
          case None => old(detectionsImage)
          case Some(k) => ClassIcon(detections[k].detectionClass)
      {
        var detection := detections[i];
        assert detections[..i + 1][..i] == detections[..i];
        if detection.detectionClass == Car && detection.confidence > MinConfidence {
          ShowDetectionIcon(DirectionsCarOrange);
        } else if detection.detectionClass == Person && detection.confidence > MinConfidence {
          ShowDetectionIcon(DirectionsWalk);
        } else if detection.detectionClass == Bicycle && detection.confidence > MinConfidence {
          ShowDetectionIcon(TwoWheeler);
        } else if detection.detectionClass == TrafficSign && detection.confidence > MinConfidence {
          ShowDetectionIcon(AltRoute);
        } else if detection.detectionClass == TrafficLight && detection.confidence > MinConfidence {
          ShowDetectionIcon(Traffic);
        }
      }
      assert detections[..|detections|] == detections;
    }
  }
}
