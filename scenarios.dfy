/**
 * Traces of the card controller as its gestures and the animation engine
 * drive it: each method builds its own controller, feeds it a sequence of
 * events and states what a user would observe.
 */
module Scenarios {
  import opened CardDemo

  /** A tap on the collapsed card starts three animators; their completion expands the card. */
  method TapThenComplete(viewHeight: real) returns (inFlight: nat, visibleAfter: bool, inFlightAfter: nat)
    ensures inFlight == 3
    ensures visibleAfter
    ensures inFlightAfter == 0
  {
    var vc := new ViewController(viewHeight);
    vc.HandleCardTap(Ended);
    inFlight := |vc.runningAnimations|;
    vc.FrameAnimationCompleted();
    visibleAfter := vc.cardIsVisible;
    inFlightAfter := |vc.runningAnimations|;
  }

  /**
   * Dragging the collapsed card up by the whole travel distance scrubs every
   * animator to fraction 1; released and completed, the card ends expanded,
   * as after a tap.
   */
  method DragThenComplete(viewHeight: real) returns (fractions: seq<real>, visibleAfter: bool, inFlightAfter: nat)
    ensures fractions == [1.0, 1.0, 1.0]
    ensures visibleAfter
    ensures inFlightAfter == 0
  {
    var vc := new ViewController(viewHeight);
    vc.HandleCardPan(Began, 0.0);
    vc.HandleCardPan(Changed, -(CardHeight - CardTitleHeight));
    ApplyAllKeeps(SetFraction(1.0), vc.runningAnimations);
    fractions := [vc.runningAnimations[0].fraction, vc.runningAnimations[1].fraction, vc.runningAnimations[2].fraction];
    vc.HandleCardPan(Ended, 0.0);
    vc.FrameAnimationCompleted();
    visibleAfter := vc.cardIsVisible;
    inFlightAfter := |vc.runningAnimations|;
  }

  /** A second tap while the transition is in flight changes nothing. */
  method TapWhileInFlight(viewHeight: real) returns (first: seq<Animator>, second: seq<Animator>, visible: bool)
    ensures |first| == 3
    ensures second == first
    ensures !visible
  {
    var vc := new ViewController(viewHeight);
    vc.HandleCardTap(Ended);
    first := vc.runningAnimations;
    vc.HandleCardTap(Ended);
    second := vc.runningAnimations;
    visible := vc.cardIsVisible;
  }

  /** Scrubbing twice with the same translation leaves the animators as scrubbing once did. */
  method ScrubTwice(viewHeight: real, translationY: real) returns (once: seq<Animator>, twice: seq<Animator>)
    ensures twice == once
    ensures |once| == 3
    ensures forall a :: a in once ==> a.paused && a.fraction == PanFraction(translationY, false)
  {
    var vc := new ViewController(viewHeight);
    vc.HandleCardPan(Began, 0.0);
    vc.HandleCardPan(Changed, translationY);
    once := vc.runningAnimations;
    ghost var paused := vc.runningAnimations;
    vc.HandleCardPan(Changed, translationY);
    twice := vc.runningAnimations;
    ApplyAllKeeps(SetFraction(PanFraction(translationY, false)), paused);
    ApplyAllIdempotent(SetFraction(PanFraction(translationY, false)), paused);
  }

  /**
   * A pan that is cancelled after it began leaves the transition paused, and
   * a later tap is then ignored: only a new pan can release it.
   */
  method CancelledPanThenTap(viewHeight: real) returns (inFlight: nat, allPaused: bool, visible: bool)
    ensures inFlight == 3
    ensures allPaused
    ensures !visible
  {
    var vc := new ViewController(viewHeight);
    vc.HandleCardPan(Began, 0.0);
    vc.HandleCardPan(Cancelled, 0.0);
    vc.HandleCardTap(Ended);
    inFlight := |vc.runningAnimations|;
    allPaused := vc.runningAnimations[0].paused && vc.runningAnimations[1].paused && vc.runningAnimations[2].paused;
    visible := vc.cardIsVisible;
  }

  /**
   * Taps that each run to completion alternate the card: collapsed, expanded,
   * collapsed, and so on. The result lists the flag before the first tap and
   * after each completion.
   */
  method TapCycles(viewHeight: real, n: nat) returns (visibility: seq<bool>)
    ensures |visibility| == n + 1
    ensures !visibility[0]
    ensures forall k :: 0 < k < |visibility| ==> visibility[k] == !visibility[k - 1]
    ensures forall k :: 0 <= k < |visibility| ==> visibility[k] == (k % 2 == 1)
  {
    var vc := new ViewController(viewHeight);
    visibility := [vc.cardIsVisible];
    var i := 0;
    while i < n
      invariant 0 <= i <= n
      invariant vc.Valid() && vc.TargetsNextState() && vc.runningAnimations == []
      invariant |visibility| == i + 1 && visibility[i] == vc.cardIsVisible
      invariant !visibility[0]
      invariant forall k :: 0 < k < |visibility| ==> visibility[k] == !visibility[k - 1]
      invariant forall k :: 0 <= k < |visibility| ==> visibility[k] == (k % 2 == 1)
    {
      vc.HandleCardTap(Ended);
      vc.FrameAnimationCompleted();
      visibility := visibility + [vc.cardIsVisible];
      i := i + 1;
    }
  }
}
