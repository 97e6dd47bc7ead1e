/**
 * The card-transition state machine of CardDemo's ViewController: a bottom
 * card that expands and collapses, driven by three property animators
 * (frame, arrow, blur) that a tap starts and a pan gesture scrubs.
 *
 * The platform animator is abstracted as a plain record (Animator): its
 * kind, the card state its closure animates to, the value the closure sets,
 * its duration, whether it is paused and its fraction complete.
 */
module CardDemo {

  /** The two positions of the card. */
  datatype CardState = Expanded | Collapsed

  /** Which property of the screen an animator drives. */
  datatype AnimatorKind = Frame | Arrow | Blur

  /** The arrow's rotation: none, or a half turn (pi radians). */
  datatype Rotation = NoRotation | HalfTurn

  /** The background effect: none, or the dark blur. */
  datatype BlurEffect = NoEffect | DarkBlur

  /** The value an animator's closure gives its property. */
  datatype Goal =
    | OriginY(y: real)
    | ArrowTransform(rotation: Rotation)
    | Effect(effect: BlurEffect)

  /** One property animator, as the controller sees it. */
  datatype Animator = Animator(
    kind: AnimatorKind,
    target: CardState,
    goal: Goal,
    duration: real,
    paused: bool,
    fraction: real)

  /** What each of the controller's loops does to one animator. */
  datatype AnimatorCommand = Pause | Continue | SetFraction(value: real)

  /** The phases a gesture recognizer reports. */
  datatype GesturePhase = Possible | Began | Changed | Ended | Cancelled | Failed

  const CardHeight: real := 400.0
  const CardTitleHeight: real := 60.0

  /** Tap and pan both start a transition of this duration (seconds). */
  const TransitionDuration: real := 0.3

  /** The card's next state is the opposite of what is shown now. */
  function NextState(cardIsVisible: bool): (s: CardState)
    ensures s == Collapsed <==> cardIsVisible
    ensures s == Expanded <==> !cardIsVisible
  {
    if cardIsVisible then Collapsed else Expanded
  }

  /** The value each animator's closure sets, for the state it animates to. */
  function GoalOf(kind: AnimatorKind, state: CardState, viewHeight: real): (g: Goal)
  {
    match kind
    case Frame =>
      OriginY(if state == Expanded then viewHeight - CardHeight else viewHeight - CardTitleHeight)
    case Arrow =>
      ArrowTransform(if state == Expanded then HalfTurn else NoRotation)
    case Blur =>
      Effect(if state == Expanded then DarkBlur else NoEffect)
  }


  /** A freshly created animator after startAnimation(): running, at fraction 0. */
  function Started(kind: AnimatorKind, state: CardState, duration: real, viewHeight: real): (a: Animator)
  {
    Animator(kind, state, GoalOf(kind, state, viewHeight), duration, false, 0.0)
  }

  /**
   * The animators of one transition move in lockstep: same target, same
   * duration, all paused or all running, one shared fraction.
   */
  predicate Lockstep(s: seq<Animator>)
  {
    forall k :: 0 <= k < |s| ==>
      s[k].target == s[0].target && s[k].duration == s[0].duration &&
      s[k].paused == s[0].paused && s[k].fraction == s[0].fraction
  }

  /** A transition in flight: frame, arrow and blur, in that order, in lockstep. */
  predicate IsTransition(s: seq<Animator>, viewHeight: real)
  {
    |s| == 3 && s[0].kind == Frame && s[1].kind == Arrow && s[2].kind == Blur &&
    (forall k :: 0 <= k < |s| ==> s[k].goal == GoalOf(s[k].kind, s[k].target, viewHeight)) &&
    Lockstep(s)
  }

  /** The three animators a new transition starts with. */
  function NewTransition(state: CardState, duration: real, viewHeight: real): (r: seq<Animator>)
    ensures |r| == 3 && r[0].kind == Frame && r[1].kind == Arrow && r[2].kind == Blur
    ensures forall a :: a in r ==>
      a.target == state && a.duration == duration && !a.paused && a.fraction == 0.0 &&
      a.goal == GoalOf(a.kind, state, viewHeight)
    ensures IsTransition(r, viewHeight)
  {
    [Started(Frame, state, duration, viewHeight),
     Started(Arrow, state, duration, viewHeight),
     Started(Blur, state, duration, viewHeight)]
  }

  /**
   * What a new transition's three animators set, fixed by the requested state
   * alone; no animator has the same goal for the two states.
   */
  lemma GoalsOfStates(duration: real, viewHeight: real)
    ensures NewTransition(Expanded, duration, viewHeight)[0].goal == OriginY(viewHeight - CardHeight)
    ensures NewTransition(Expanded, duration, viewHeight)[1].goal == ArrowTransform(HalfTurn)
    ensures NewTransition(Expanded, duration, viewHeight)[2].goal == Effect(DarkBlur)
    ensures NewTransition(Collapsed, duration, viewHeight)[0].goal == OriginY(viewHeight - CardTitleHeight)
    ensures NewTransition(Collapsed, duration, viewHeight)[1].goal == ArrowTransform(NoRotation)
    ensures NewTransition(Collapsed, duration, viewHeight)[2].goal == Effect(NoEffect)
    ensures forall kind :: GoalOf(kind, Expanded, viewHeight) != GoalOf(kind, Collapsed, viewHeight)
  {
  }

  /** pauseAnimation(), continueAnimation(...) and setting fractionComplete. */
  function Apply(c: AnimatorCommand, a: Animator): (r: Animator)
  {
    match c
    case Pause => a.(paused := true)
    case Continue => a.(paused := false)
    case SetFraction(f) => a.(fraction := f)
  }

  /** One of the controller's loops: the same command to every animator, in order. */
  function ApplyAll(c: AnimatorCommand, s: seq<Animator>): (r: seq<Animator>)
    ensures |r| == |s|
    ensures forall k :: 0 <= k < |s| ==> r[k] == Apply(c, s[k])
  {
    if s == [] then [] else [Apply(c, s[0])] + ApplyAll(c, s[1..])
  }

  /** Every command touches only its own aspect of an animator. */
  lemma ApplyAllKeeps(c: AnimatorCommand, s: seq<Animator>)
    ensures forall k :: 0 <= k < |s| ==>
      ApplyAll(c, s)[k].kind == s[k].kind && ApplyAll(c, s)[k].target == s[k].target &&
      ApplyAll(c, s)[k].goal == s[k].goal && ApplyAll(c, s)[k].duration == s[k].duration
    ensures !c.SetFraction? ==> forall k :: 0 <= k < |s| ==> ApplyAll(c, s)[k].fraction == s[k].fraction
    ensures !c.Pause? && !c.Continue? ==> forall k :: 0 <= k < |s| ==> ApplyAll(c, s)[k].paused == s[k].paused
    ensures c.Pause? ==> forall a :: a in ApplyAll(c, s) ==> a.paused
    ensures c.Continue? ==> forall a :: a in ApplyAll(c, s) ==> !a.paused
    ensures c.SetFraction? ==> forall a :: a in ApplyAll(c, s) ==> a.fraction == c.value
  {
  }

  /** Applying a command twice is the same as applying it once. */
  lemma ApplyAllIdempotent(c: AnimatorCommand, s: seq<Animator>)
    ensures ApplyAll(c, ApplyAll(c, s)) == ApplyAll(c, s)
  {
  }

  /** A transition stays a transition whichever of the loops runs over it. */
  lemma ApplyAllKeepsTransition(c: AnimatorCommand, s: seq<Animator>, viewHeight: real)
    requires IsTransition(s, viewHeight)
    ensures IsTransition(ApplyAll(c, s), viewHeight)
  {
  }

  /**
   * The pan's fraction: the vertical translation over the distance the card
   * travels, with the sign flipped while the card is collapsed, so that a drag
   * towards the next state always counts positive.
   */
  function PanFraction(translationY: real, cardIsVisible: bool): (r: real)
    ensures r * (CardHeight - CardTitleHeight) == (if cardIsVisible then translationY else -translationY)
    ensures r > 0.0 <==> (cardIsVisible && translationY > 0.0) || (!cardIsVisible && translationY < 0.0)
    ensures r == 0.0 <==> translationY == 0.0
  {
    var fractionComplete := translationY / (CardHeight - CardTitleHeight);
    if cardIsVisible then fractionComplete else -fractionComplete
  }

  class ViewController {
    /** The height of the screen's view, which places the card's frame. */
    const viewHeight: real

    var cardIsVisible: bool
    var runningAnimations: seq<Animator>
    var animationProgressWhenInterrupted: real

    /** No transition, or exactly one whose animators move in lockstep. */
    ghost predicate Valid()
      reads this
    {
      runningAnimations == [] || IsTransition(runningAnimations, viewHeight)
    }

    /** A transition in flight heads for the state opposite to the shown one. */
    ghost predicate TargetsNextState()
      reads this
    {
      forall a :: a in runningAnimations ==> a.target == NextState(cardIsVisible)
    }

    constructor (viewHeight: real)
      ensures this.viewHeight == viewHeight
      ensures !cardIsVisible && runningAnimations == [] && animationProgressWhenInterrupted == 0.0
      ensures Valid() && TargetsNextState()
    {
      this.viewHeight := viewHeight;
      cardIsVisible := false;
      runningAnimations := [];
      animationProgressWhenInterrupted := 0.0;
    }

    /** A tap starts the transition when the tap gesture ends. */
    method HandleCardTap(phase: GesturePhase)
      requires Valid() && TargetsNextState()
      modifies this
      ensures Valid() && TargetsNextState()
      ensures cardIsVisible == old(cardIsVisible)
      ensures animationProgressWhenInterrupted == old(animationProgressWhenInterrupted)
      ensures runningAnimations ==
        if phase == Ended && old(runningAnimations) == []
        then NewTransition(NextState(cardIsVisible), TransitionDuration, viewHeight)
        else old(runningAnimations)
    {
      if phase == Ended {
        AnimateTransitionIfNeeded(NextState(cardIsVisible), TransitionDuration);
      }
    }

    /** A pan starts and pauses the transition, scrubs it, and lets it run on. */
    method HandleCardPan(phase: GesturePhase, translationY: real)
      requires Valid() && TargetsNextState()
      modifies this
      ensures Valid() && TargetsNextState()
      ensures cardIsVisible == old(cardIsVisible)
      ensures phase == Began ==>
        runningAnimations == ApplyAll(Pause,
          if old(runningAnimations) == []
          then NewTransition(NextState(cardIsVisible), TransitionDuration, viewHeight)
          else old(runningAnimations)) &&
        animationProgressWhenInterrupted == runningAnimations[|runningAnimations| - 1].fraction
      ensures phase == Changed ==>
        runningAnimations == ApplyAll(
          SetFraction(PanFraction(translationY, cardIsVisible) + animationProgressWhenInterrupted),
          old(runningAnimations)) &&
        animationProgressWhenInterrupted == old(animationProgressWhenInterrupted)
      ensures phase == Ended ==>
        runningAnimations == ApplyAll(Continue, old(runningAnimations)) &&
        animationProgressWhenInterrupted == old(animationProgressWhenInterrupted)
      ensures phase.Possible? || phase.Cancelled? || phase.Failed? ==>
        runningAnimations == old(runningAnimations) &&
        animationProgressWhenInterrupted == old(animationProgressWhenInterrupted)
    {
      match phase
      case Began =>
        StartInteractiveTransition(NextState(cardIsVisible), TransitionDuration);
      case Changed =>
        var fractionComplete := PanFraction(translationY, cardIsVisible);
        UpdateInteractiveTransition(fractionComplete);
      case Ended =>
        ContinueInteractiveTransition();
      case _ =>
    }

    /**
     * Starts the frame, arrow and blur animators towards the given state,
     * unless a transition is already in flight.
     */
    method AnimateTransitionIfNeeded(state: CardState, duration: real)
      requires Valid()
      modifies this
      ensures Valid()
      ensures cardIsVisible == old(cardIsVisible)
      ensures animationProgressWhenInterrupted == old(animationProgressWhenInterrupted)
      ensures old(runningAnimations) == [] ==> runningAnimations == NewTransition(state, duration, viewHeight)
      ensures old(runningAnimations) != [] ==> runningAnimations == old(runningAnimations)
    {
      if runningAnimations == [] {
        // The frame animator carries the completion, FrameAnimationCompleted.
        var frameAnimator := Started(Frame, state, duration, viewHeight);
        runningAnimations := runningAnimations + [frameAnimator];

        var arrowAnimator := Started(Arrow, state, duration, viewHeight);
        runningAnimations := runningAnimations + [arrowAnimator];

        var blurAnimator := Started(Blur, state, duration, viewHeight);
        runningAnimations := runningAnimations + [blurAnimator];
      }
    }

    /**
     * The frame animator's completion: the card now shows the state it moved
     * to, and the transition is over. This is the only place the flag changes.
     */
    method FrameAnimationCompleted()
      requires Valid() && TargetsNextState()
      requires runningAnimations != [] && !runningAnimations[0].paused
      modifies this
      ensures Valid() && TargetsNextState()
      ensures cardIsVisible == !old(cardIsVisible)
      ensures cardIsVisible <==> old(runningAnimations)[0].target == Expanded
      ensures runningAnimations == []
      ensures animationProgressWhenInterrupted == old(animationProgressWhenInterrupted)
    {
      cardIsVisible := !cardIsVisible;
      runningAnimations := [];
    }

    /**
     * Starts a transition if none is in flight, then pauses every animator,
     * recording the fraction of each as it goes, so the last one's remains.
     */
    method StartInteractiveTransition(state: CardState, duration: real)
      requires Valid()
      modifies this
      ensures Valid()
      ensures cardIsVisible == old(cardIsVisible)
      ensures runningAnimations == ApplyAll(Pause,
        if old(runningAnimations) == [] then NewTransition(state, duration, viewHeight)
        else old(runningAnimations))
      ensures |runningAnimations| == 3
      ensures forall a :: a in runningAnimations ==> a.paused
      ensures animationProgressWhenInterrupted == runningAnimations[|runningAnimations| - 1].fraction
      ensures forall a :: a in runningAnimations ==> a.fraction == animationProgressWhenInterrupted
    {
      if runningAnimations == [] {
        AnimateTransitionIfNeeded(state, duration);
      }
      ghost var before := runningAnimations;
      var i := 0;
      while i < |runningAnimations|
        invariant 0 <= i <= |runningAnimations| == |before|
        invariant forall k :: 0 <= k < i ==> runningAnimations[k] == Apply(Pause, before[k])
        invariant forall k :: i <= k < |before| ==> runningAnimations[k] == before[k]
        invariant 0 < i ==> animationProgressWhenInterrupted == before[i - 1].fraction
        invariant cardIsVisible == old(cardIsVisible)
      {
        runningAnimations := runningAnimations[i := runningAnimations[i].(paused := true)];
        animationProgressWhenInterrupted := runningAnimations[i].fraction;
        i := i + 1;
      }
      assert runningAnimations == ApplyAll(Pause, before);
      ApplyAllKeeps(Pause, before);
      ApplyAllKeepsTransition(Pause, before, viewHeight);
    }

    /** Drives every animator to the same fraction: the pan's plus the recorded offset. */
    method UpdateInteractiveTransition(fractionComplete: real)
      requires Valid()
      modifies this
      ensures Valid()
      ensures cardIsVisible == old(cardIsVisible)
      ensures animationProgressWhenInterrupted == old(animationProgressWhenInterrupted)
      ensures runningAnimations ==
        ApplyAll(SetFraction(fractionComplete + animationProgressWhenInterrupted), old(runningAnimations))
    {
      ghost var before := runningAnimations;
      var i := 0;
      while i < |runningAnimations|
        invariant 0 <= i <= |runningAnimations| == |before|
        invariant forall k :: 0 <= k < i ==>
          runningAnimations[k] == Apply(SetFraction(fractionComplete + animationProgressWhenInterrupted), before[k])
        invariant forall k :: i <= k < |before| ==> runningAnimations[k] == before[k]
        invariant cardIsVisible == old(cardIsVisible)
        invariant animationProgressWhenInterrupted == old(animationProgressWhenInterrupted)
      {
        runningAnimations := runningAnimations[i := runningAnimations[i].(fraction := fractionComplete + animationProgressWhenInterrupted)];
        i := i + 1;
      }
      var c := SetFraction(fractionComplete + animationProgressWhenInterrupted);
      assert runningAnimations == ApplyAll(c, before);
      if before != [] {
        ApplyAllKeepsTransition(c, before, viewHeight);
      }
    }

    /** Lets every animator run on from where the pan left it. */
    method ContinueInteractiveTransition()
      requires Valid()
      modifies this
      ensures Valid()
      ensures cardIsVisible == old(cardIsVisible)
      ensures animationProgressWhenInterrupted == old(animationProgressWhenInterrupted)
      ensures runningAnimations == ApplyAll(Continue, old(runningAnimations))
    {
      ghost var before := runningAnimations;
      var i := 0;
      while i < |runningAnimations|
        invariant 0 <= i <= |runningAnimations| == |before|
        invariant forall k :: 0 <= k < i ==> runningAnimations[k] == Apply(Continue, before[k])
        invariant forall k :: i <= k < |before| ==> runningAnimations[k] == before[k]
        invariant cardIsVisible == old(cardIsVisible)
        invariant animationProgressWhenInterrupted == old(animationProgressWhenInterrupted)
      {
        runningAnimations := runningAnimations[i := runningAnimations[i].(paused := false)];
        i := i + 1;
      }
      assert runningAnimations == ApplyAll(Continue, before);
      if before != [] {
        ApplyAllKeepsTransition(Continue, before, viewHeight);
      }
    }
  }
}
