/**
 * The calls MainActivity makes on the vision SDK to start and stop it, and
 * what a start that throws part-way leaves behind.
 */
module VisionLifecycle {

  import opened Wrappers

  /** One call on VisionManager, the vision view or VisionSafetyManager. */
  datatype SdkOp =
    | VisionManagerCreate
    | SetVisionManagerOnView
    | VisionManagerStart
    | SetVisionEventsListener
    | VisionSafetyManagerCreate
    | SetVisionSafetyListener
    | VisionSafetyManagerDestroy
    | VisionManagerStop
    | VisionManagerDestroy

  /** The calls of startVisionManager's try block, in order. */
  const StartSequence: seq<SdkOp> := [
    VisionManagerCreate, SetVisionManagerOnView, VisionManagerStart,
    SetVisionEventsListener, VisionSafetyManagerCreate, SetVisionSafetyListener]

  /** The calls of stopVisionManager, in order. */
  const StopSequence: seq<SdkOp> := [VisionSafetyManagerDestroy, VisionManagerStop, VisionManagerDestroy]

  /** No call of the sequence throws. */
  predicate Completes(steps: seq<SdkOp>, throwing: set<SdkOp>)
  {
    forall i :: 0 <= i < |steps| ==> steps[i] !in throwing
  }

  /**
   * The calls issued when the sequence runs inside one try block and the
   * calls in `throwing` throw: everything up to and including the first call
   * that throws.
   */
  function Attempted(steps: seq<SdkOp>, throwing: set<SdkOp>): (r: seq<SdkOp>)
    ensures |r| <= |steps| && r == steps[..|r|]
    ensures Completes(steps, throwing) <==> r == steps && Completes(r, throwing)
    ensures !Completes(steps, throwing) ==>
      |r| > 0 && r[|r| - 1] in throwing && Completes(r[..|r| - 1], throwing)
  {
    if steps == [] then []
    else if steps[0] in throwing then [steps[0]]
    else [steps[0]] + Attempted(steps[1..], throwing)
  }

  /** The calls issued stop right after the first call that throws. */
  lemma {:induction false} AttemptedStopsAtFirstThrow(steps: seq<SdkOp>, throwing: set<SdkOp>, k: nat)
    requires k < |steps| && steps[k] in throwing
    requires Completes(steps[..k], throwing)
    ensures Attempted(steps, throwing) == steps[..k + 1]
  {
    if k > 0 {
      assert steps[..k][0] == steps[0];
      assert steps[1..][..k - 1] == steps[..k][1..];
      AttemptedStopsAtFirstThrow(steps[1..], throwing, k - 1);
      assert [steps[0]] + steps[1..][..k] == steps[..k + 1];
    }
  }

  /** The call that undoes a call acquiring an SDK resource. */
  function Release(op: SdkOp): Option<SdkOp>
  {
    match op
    case VisionManagerCreate => Some(VisionManagerDestroy)
    case VisionManagerStart => Some(VisionManagerStop)
    case VisionSafetyManagerCreate => Some(VisionSafetyManagerDestroy)
    case _ => None
  }

  /** The releases that undo a run of calls, last acquired first released. */
  function Teardown(ops: seq<SdkOp>): seq<SdkOp>
  {
    if ops == [] then []
    else
      var rest := Teardown(ops[1..]);
      match Release(ops[0])
      case Some(undo) => rest + [undo]
      case None => rest
  }

  /** stopVisionManager releases exactly what a completed start acquired, in reverse order. */
  lemma StopReversesStart()
    ensures Teardown(StartSequence) == StopSequence
  {
  }

  /**
   * When a start call other than the first throws, VisionManager has already
   * been created, so the acquired resources need a teardown; yet the flag stays
   * false and stopVisionManager does nothing.
   */
  lemma FailedStartLeavesResources(throwing: set<SdkOp>)
    requires !Completes(StartSequence, throwing)
    requires StartSequence[0] !in throwing
    ensures var done := Attempted(StartSequence, throwing);
            VisionManagerDestroy in Teardown(done[..|done| - 1])
  {
    var done := Attempted(StartSequence, throwing);
    assert done[0] == VisionManagerCreate;
    TeardownReleasesEach(done[..|done| - 1], 0);
  }

  /**
   * Last acquired, first released: the teardown of a run followed by more
   * calls releases what the later calls acquired before what the run acquired.
   */
  lemma {:induction false} TeardownReversesOrder(first: seq<SdkOp>, later: seq<SdkOp>)
    ensures Teardown(first + later) == Teardown(later) + Teardown(first)
  {
    if first != [] {
      assert (first + later)[0] == first[0];
      assert (first + later)[1..] == first[1..] + later;
      TeardownReversesOrder(first[1..], later);
      match Release(first[0])
      case Some(undo) =>
        assert Teardown(first + later) == Teardown(later) + Teardown(first[1..]) + [undo];
      case None =>
    } else {
      assert first + later == later;
    }
  }

  /** Every acquiring call of a run has its release in the run's teardown. */
  lemma {:induction false} TeardownReleasesEach(ops: seq<SdkOp>, i: nat)
    requires i < |ops| && Release(ops[i]).Some?
    ensures Release(ops[i]).value in Teardown(ops)
  {
    if i > 0 {
      TeardownReleasesEach(ops[1..], i - 1);
    }
  }
}
