/**
 * Which icon the detections view shows after a frame of detections: every
 * confident detection of a tracked class posts its class icon, in list order,
 * so the last one wins.
 */
module Detections {

  import opened Wrappers
  import opened Resources

  /** The SDK's detection classes; OtherClass stands for any class outside the five tracked ones. */
  datatype DetectionClass = Car | Person | Bicycle | TrafficSign | TrafficLight | OtherClass

  datatype Detection = Detection(detectionClass: DetectionClass, confidence: real)

  /** A detection must be strictly more confident than this to be shown. */
  const MinConfidence: real := 0.6

  /** The icon shown for a class, if the class is tracked. */
  function ClassIcon(c: DetectionClass): (icon: Option<Drawable>)
    ensures icon.Some? <==> c != OtherClass
    ensures icon.Some? ==> IconClass(icon.value) == Some(c)
  {
    match c
    case Car => Some(DirectionsCarOrange)
    case Person => Some(DirectionsWalk)
    case Bicycle => Some(TwoWheeler)
    case TrafficSign => Some(AltRoute)
    case TrafficLight => Some(Traffic)
    case OtherClass => None
  }

  /** The class an icon stands for; the speed-sign images stand for none. */
  function IconClass(d: Drawable): Option<DetectionClass>
  {
    match d
    case DirectionsCarOrange => Some(Car)
    case DirectionsWalk => Some(Person)
    case TwoWheeler => Some(Bicycle)
    case AltRoute => Some(TrafficSign)
    case Traffic => Some(TrafficLight)
    case _ => None
  }

  predicate Qualifies(d: Detection)
  {
    ClassIcon(d.detectionClass).Some? && d.confidence > MinConfidence
  }

  /** The index of the last qualifying detection of the frame, if any. */
  function LastQualifying(ds: seq<Detection>): (r: Option<nat>)
    ensures r.Some? ==> r.value < |ds| && Qualifies(ds[r.value])
    ensures r.Some? ==> forall j :: r.value < j < |ds| ==> !Qualifies(ds[j])
    ensures r.None? <==> forall j :: 0 <= j < |ds| ==> !Qualifies(ds[j])
  {
    if ds == [] then None
    else if Qualifies(ds[|ds| - 1]) then Some(|ds| - 1)
    else LastQualifying(ds[..|ds| - 1])
  }

  /** The icon updates the frame posts, one per qualifying detection, in list order. */
  function PostedIcons(ds: seq<Detection>): seq<Drawable>
  {
    if ds == [] then []
    else
      var last := ds[|ds| - 1];
      PostedIcons(ds[..|ds| - 1]) + (if Qualifies(last) then [ClassIcon(last.detectionClass).value] else [])
  }

  /**
   * The frame posts an update exactly when some detection qualifies, and the
   * last update posted is the icon of the last qualifying detection.
   */
  lemma {:induction false} LastPostedIconWins(ds: seq<Detection>)
    ensures PostedIcons(ds) == [] <==> LastQualifying(ds).None?
    ensures LastQualifying(ds).Some? ==>
      PostedIcons(ds)[|PostedIcons(ds)| - 1] == ClassIcon(ds[LastQualifying(ds).value].detectionClass).value
  {
    if ds != [] && !Qualifies(ds[|ds| - 1]) {
      var init := ds[..|ds| - 1];
      LastPostedIconWins(init);
      assert PostedIcons(ds) == PostedIcons(init);
      if LastQualifying(init).Some? {
        assert init[LastQualifying(init).value] == ds[LastQualifying(init).value];
      }
    }
  }

  /**
   * The posted icons are exactly the icons of the qualifying detections: each
   * qualifying detection posts its class icon, each posted icon is the class
   * icon of some qualifying detection, and no more icons are posted than there
   * are detections.
   */
  lemma {:induction false} PostedIconsAreQualifyingIcons(ds: seq<Detection>)
    ensures forall i :: 0 <= i < |ds| && Qualifies(ds[i]) ==>
      ClassIcon(ds[i].detectionClass).value in PostedIcons(ds)
    ensures forall k :: 0 <= k < |PostedIcons(ds)| ==>
      exists i :: 0 <= i < |ds| && Qualifies(ds[i]) && PostedIcons(ds)[k] == ClassIcon(ds[i].detectionClass).value
    ensures forall k :: 0 <= k < |PostedIcons(ds)| ==> IconClass(PostedIcons(ds)[k]).Some?
    ensures |PostedIcons(ds)| <= |ds|
  {
    if ds != [] {
      var init := ds[..|ds| - 1];
      var last := ds[|ds| - 1];
      PostedIconsAreQualifyingIcons(init);
      var posted := PostedIcons(init);
      assert PostedIcons(ds) == posted + (if Qualifies(last) then [ClassIcon(last.detectionClass).value] else []);
      forall i | 0 <= i < |ds| && Qualifies(ds[i])
        ensures ClassIcon(ds[i].detectionClass).value in PostedIcons(ds)
      {
        if i < |ds| - 1 {
          assert init[i] == ds[i];
        }
      }
      forall k | 0 <= k < |PostedIcons(ds)|
        ensures exists i :: 0 <= i < |ds| && Qualifies(ds[i]) && PostedIcons(ds)[k] == ClassIcon(ds[i].detectionClass).value
        ensures IconClass(PostedIcons(ds)[k]).Some?
      {
        if k < |posted| {
          assert PostedIcons(ds)[k] == posted[k];
          assert exists i :: 0 <= i < |init| && Qualifies(init[i]) && posted[k] == ClassIcon(init[i].detectionClass).value;
          var i :| 0 <= i < |init| && Qualifies(init[i]) && posted[k] == ClassIcon(init[i].detectionClass).value;
          assert init[i] == ds[i];
        } else {
          assert PostedIcons(ds)[k] == ClassIcon(ds[|ds| - 1].detectionClass).value;
        }
      }
    } else {
      assert PostedIcons(ds) == [];
    }
  }
}
