# CardDemo card transition, modelled in Dafny

CardDemo is a single screen with a bottom card. The card expands or collapses
when the user taps its title bar or drags it. One transition is three property
animators started together:

- the frame animator moves the card's origin;
- the arrow animator rotates the arrow;
- the blur animator fades the background blur in or out.

A drag pauses these animators and scrubs them all to one fraction. Releasing
the drag lets them run on. When the frame animator completes, the controller
flips its visibility flag and forgets the animators.

`view_controller.dfy` (module `CardDemo`) holds the model:

- the card state, the three animator kinds and the values their closures set;
- the platform animator as a plain record, `Animator`;
- the class `ViewController`, with the source's three fields `cardIsVisible`,
  `runningAnimations` and `animationProgressWhenInterrupted`.

The three `for animator in runningAnimations` loops are `while` loops. Each
one updates the sequence element by element. Each is proved against
`ApplyAll`, which applies one animator command (pause, continue, set the
fraction) to every animator in order. The frame animator's completion closure
is the method `FrameAnimationCompleted`. The animation engine calls it only
while the frame animator is in flight and not paused.

The class keeps two invariants:

- `Valid`: there is no transition, or there are exactly three animators
  (frame, arrow, blur, in that order) in lockstep. Lockstep means they share
  one target, one duration, one paused flag and one fraction.
- `TargetsNextState`: every animator in flight heads for the state opposite
  to the one shown.

`cardIsVisible` changes only in `FrameAnimationCompleted`. Every other method
states that it leaves the flag alone.

`scenarios.dfy` (module `Scenarios`) drives the controller through verified
traces of events and states what the user observes:

- a tap followed by completion;
- a full-length drag followed by completion;
- a second tap while a transition is in flight;
- the same scrub applied twice;
- a pan that is cancelled after it began;
- any number of completed taps, which alternate the card.

When a pan begins, the pause loop overwrites the offset on every iteration,
so the offset ends as the last animator's fraction. Lockstep makes the last
fraction equal to every animator's fraction.

A pan that is cancelled or fails after `.began` falls into the `default`
branch of the pan handler. The animators then stay paused. While they are
paused, taps are ignored, because `runningAnimations` is not empty.
`Scenarios.CancelledPanThenTap` shows this behaviour of the source.

## Model

| member | source | states |
|---|---|---|
| CardDemo.NextState | CardDemo/ViewController.swift:28-30 | the next state is `Collapsed` exactly when the card is visible, and `Expanded` exactly when it is not |
| CardDemo.GoalsOfStates | CardDemo/ViewController.swift:117-155 | in a new transition towards the expanded state, the frame, arrow and blur animators set origin y to viewHeight − 400, a half-turn arrow and the dark blur; towards the collapsed state they set viewHeight − 60, no rotation and no effect; no animator has the same goal for the two states |
| CardDemo.NewTransition | CardDemo/ViewController.swift:116-158 | a new transition is exactly three animators, ordered frame, arrow, blur. All three are started (not paused) at fraction 0, share the given duration and target state, and carry that state's goals. Together they form a lockstep transition |
| CardDemo.ApplyAll | CardDemo/ViewController.swift:167-184 | a loop over the animators keeps their number and applies the same command to the animator at each index |
| CardDemo.ApplyAllKeeps | CardDemo/ViewController.swift:167-184 | pause leaves every animator paused and continue leaves every one running, each without changing fractions. Setting the fraction gives every animator that one value and leaves the paused flags alone. No command changes an animator's kind, target, goal or duration |
| CardDemo.ApplyAllIdempotent | CardDemo/ViewController.swift:174-178 | running the same loop twice, for example scrubbing to the same fraction again, gives the same animators as running it once |
| CardDemo.ApplyAllKeepsTransition | CardDemo/ViewController.swift:163-185 | pausing, scrubbing or continuing a lockstep transition of frame, arrow and blur leaves a lockstep transition of frame, arrow and blur |
| CardDemo.PanFraction | CardDemo/ViewController.swift:96-99 | the fraction times the travel distance 400 − 60 equals the vertical translation, negated when the card is collapsed. It is positive exactly for a downward drag of a visible card or an upward drag of a hidden one, and zero exactly for no translation |
| CardDemo.ViewController.constructor | CardDemo/ViewController.swift:27-33 | the card starts hidden, with no animators and offset 0 |
| CardDemo.ViewController.HandleCardTap | CardDemo/ViewController.swift:80-87 | only `.ended` acts. It starts a 0.3 s transition towards the next state when none is in flight and otherwise changes nothing. The flag and offset are never touched |
| CardDemo.ViewController.HandleCardPan | CardDemo/ViewController.swift:90-107 | `.began` pauses the transition, starting one towards the next state first if none is in flight, and records the last animator's fraction. `.changed` scrubs every animator to the pan fraction plus the offset. `.ended` continues every animator. Every other phase changes nothing. No phase touches the flag |
| CardDemo.ViewController.AnimateTransitionIfNeeded | CardDemo/ViewController.swift:112-160 | with no animators it installs exactly the new transition. With a transition in flight it changes nothing. It never changes the flag or the offset |
| CardDemo.ViewController.FrameAnimationCompleted | CardDemo/ViewController.swift:126-129 | the flag is negated, and now says whether the finished transition went to `Expanded`. The animator list is emptied and the offset is kept |
| CardDemo.ViewController.StartInteractiveTransition | CardDemo/ViewController.swift:163-171 | afterwards the list equals the previous (or newly started) transition with every animator paused, so it holds three animators. The offset is the last animator's fraction, which every animator shares. The flag is kept |
| CardDemo.ViewController.UpdateInteractiveTransition | CardDemo/ViewController.swift:174-178 | every animator's fraction becomes the given fraction plus the offset, and nothing else about any animator changes. The flag, the offset and the list length are kept |
| CardDemo.ViewController.ContinueInteractiveTransition | CardDemo/ViewController.swift:181-185 | every animator is un-paused, and nothing else changes |
| Scenarios.TapThenComplete | CardDemo/ViewController.swift:80-87 | from the initial state, a tap puts three animators in flight, and their completion leaves the card visible with no animators |
| Scenarios.DragThenComplete | CardDemo/ViewController.swift:90-107 | an upward drag of the collapsed card by 340 scrubs all three animators to fraction 1. After release and completion, the card ends visible with no animators, as after a tap |
| Scenarios.TapWhileInFlight | CardDemo/ViewController.swift:113 | a second tap while three animators are in flight leaves them exactly as they were, and the card stays hidden |
| Scenarios.ScrubTwice | CardDemo/ViewController.swift:174-178 | scrubbing again with the same translation leaves the three paused animators unchanged, at the pan fraction |
| Scenarios.CancelledPanThenTap | CardDemo/ViewController.swift:102-106 | after a pan begins and is then cancelled, the three animators stay paused, a tap does not release them, and the card stays hidden |
| Scenarios.TapCycles | CardDemo/ViewController.swift:126-129 | over n taps, each run to completion, the flag starts false and alternates after each completion, so it is true exactly after an odd number of them |

## Left out

- View setup, the nib, adding the blur view and registering the gesture recognizers (`viewDidLoad`, `setupCard`, `setupGestures`) are UIKit plumbing and are not modelled.
- The platform animator's own behaviour is not modelled. This covers progress with time, the damping curve (`dampingRatio: 1`), the clamping of `fractionComplete` to [0, 1], and `durationFactor: 0` on continue. An animator's fraction changes only by scrubbing, and the completion is an explicit event (`FrameAnimationCompleted`) that the caller triggers.
- CardDemo.ViewController.FrameAnimationCompleted: requires the frame animator to be in flight and not paused. The engine only calls the closure in that case. The closure's position argument, which the source ignores, is not modelled.
- In the source, the arrow and blur animators go on running after `removeAll()` drops them from the list. The model keeps only the list, not those animators' remaining run.
- The view's height is a constant of the controller (`viewHeight`), given at construction. The source reads `view.frame.height` each time an animator's closure runs.
- Frames, affine transforms and blur effects are not rendered. The goals are symbolic: a real origin y, a rotation of none or a half turn (π), and a blur effect of none or dark.
- `CGFloat` and `TimeInterval` floating point are modelled as `real`.
- Only the vertical component of the pan's translation is modelled. The source ignores the horizontal one.
- Gesture delivery is not modelled. The recognizer's state is an input (`GesturePhase`) to the two handler methods.
