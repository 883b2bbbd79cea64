# Celestial Hands: gesture classifier, shape generators and morph engine

This Dafny project models the logic behind a hand-gesture particle toy.

- A webcam hand tracker reports 21 landmarks per frame.
- A classifier maps the landmarks to one of five gestures: Idle, Fist, ThumbsUp, Victory or ILoveYou.
- A cloud of 30000 particles morphs towards the shape of the current gesture:
  - Idle: a noise cube.
  - ThumbsUp: a spiral sphere.
  - Victory: a heart.
  - ILoveYou: the caption "I LOVE YOU".
  - Fist: a small cluster that follows the palm.

The modules follow the source files:

- `Types` (types.ts) holds the gesture enumeration and the records passed between components.
- `GestureService` (services/gestureService.ts) holds the classifier. It has the finger and thumb tests and the ordered rule list. It also gives an order-free characterisation of the rules and proves that the rules are mutually exclusive.
- `Shapes` and `TextShape` (utils/shapes.ts) hold the generators. Each one returns a flat buffer of `3 * count` reals.
  - Randomness is an explicit sequence of samples in [0,1). The samples are consumed in the order the generator draws them.
  - sin, cos, acos, sqrt and pi are supplied as a `Trig` record. The sphere and heart properties are proved from stated identities of these functions.
  - The caption's RGBA bytes are an input. The input is `None` when no 2D canvas context exists.
  - The text generator returns `Failure(EmptyPixelList)` when it would throw. That happens when no pixel is lit and at least one point is requested.
- `ParticleCanvas` (components/ParticleCanvas.tsx) holds the shape table and the morph engine. The engine state is `MorphState(base, target, progress, prevGesture)`. A hand update is a pure function of that state. The displayed positions are `mix(base, target, progress)`.
- `App` (App.tsx, plus the tracker callback of components/HandTracker.tsx) holds three parts:
  - the hand-state reducer;
  - the gesture caption;
  - a `Run` over interleaved tracker detections and animation frames.

`ParticleState.handPos` is an `Option`. The source stores `data.landmarks[9]`, and that is `undefined` when the list has fewer than ten entries. The model proves that the morph engine only reads the palm position when it is defined. The reason is that a fist is recognised only from a complete 21-landmark observation.

## Model

| member | source | states |
|---|---|---|
| GestureService.Recognize | services/gestureService.ts:4-42 | Fewer than 21 landmarks give Idle. Otherwise the result is the single rule that matches the observed pose, or Idle when none matches. |
| GestureService.Classify | services/gestureService.ts:20-41 | The ordered rules, including the ThumbsUp vertical check that falls through, return the unique matching gesture, or Idle when no rule matches. |
| GestureService.RulesExclusive | services/gestureService.ts:21-39 | No two of the Fist, ThumbsUp, Victory and ILoveYou conditions can hold for the same pose. |
| GestureService.RuleOrderIrrelevant | services/gestureService.ts:20-41 | Trying the four rules in any order that lists them all gives the classifier's result, so the rule order never breaks a tie. |
| GestureService.FirstMatchFindsTheMatch | services/gestureService.ts:20-41 | A first-match scan over any list that contains every matching rule returns the classifier's result. |
| GestureService.SourceOrderIsFirstMatch | services/gestureService.ts:20-41 | The classifier is the first-match scan over Fist, ThumbsUp, Victory, ILoveYou. |
| GestureService.ShortObservationIsIdle | services/gestureService.ts:5 | An observation with fewer than 21 landmarks is Idle. |
| GestureService.GestureNeedsFullHand | services/gestureService.ts:5 | Any gesture other than Idle implies a complete 21-landmark observation. |
| GestureService.FingersDownThumbInIsFist | services/gestureService.ts:8-23 | All four fingers down and a thumb spread of at most 0.12 give Fist, whatever the other coordinates are. |
| GestureService.ThumbSpreadIsStrict | services/gestureService.ts:15-18 | A thumb spread of exactly 0.12 does not count as extended, so with the fingers down the hand is a Fist. |
| GestureService.ThumbUpAboveIpIsThumbsUp | services/gestureService.ts:25-29 | An extended thumb whose tip is above its IP joint, with all fingers down, gives ThumbsUp. |
| GestureService.SidewaysThumbFallsThroughToIdle | services/gestureService.ts:25-41 | An extended thumb whose tip is not above its IP joint, with all fingers down, gives Idle and not Fist. |
| GestureService.TwoFingersIsVictory | services/gestureService.ts:31-34 | Index and middle up with ring and pinky down gives Victory, whatever the thumb does. |
| GestureService.RockOnIsILoveYou | services/gestureService.ts:36-39 | Index and pinky up, middle and ring down, and the thumb extended give ILoveYou. |
| Shapes.Centered | utils/shapes.ts:9 | `(r - 0.5) * span` for a sample r in [0,1) lies in [-span/2, span/2). |
| Shapes.NoisePoints | utils/shapes.ts:6-14 | The buffer has length 3*count, and with samples in [0,1) every coordinate lies in [-7.5, 7.5). |
| Shapes.SphereAcosArg | utils/shapes.ts:19 | For 0 <= i < count the acos argument `-1 + 2i/count` lies in [-1, 1). |
| Shapes.SpherePoints | utils/shapes.ts:16-27 | The buffer has length 3*count, and index k holds component k mod 3 of spiral point k/3. |
| Shapes.SphereOnRadius | utils/shapes.ts:18-25 | If sin²+cos²=1 holds for the supplied functions, every spiral point lies at distance `radius` from the origin. |
| Shapes.SphereHeight | utils/shapes.ts:19-24 | If cos undoes acos on [-1,1], every point i < count, the last included, has height `radius * (-1 + 2i/count)`. |
| Shapes.SphereHeightsEvenlySpaced | utils/shapes.ts:19-24 | If cos undoes acos on [-1,1], the heights rise strictly with the index for a positive radius. |
| Shapes.HeartX | utils/shapes.ts:35-41 | For sin t in [-1,1] the scaled outline x `16 sin³t * 0.25` lies in [-4, 4]. |
| Shapes.HeartY | utils/shapes.ts:36-42 | For cosines in [-1,1] the scaled outline y lies in [-5.25, 5.25]. |
| Shapes.HeartPoints | utils/shapes.ts:29-46 | The buffer has length 3*count. Index k holds component k mod 3 of the heart point drawn from samples 2(k/3) and 2(k/3)+1, so the curve parameter is drawn before the depth. With samples in [0,1) every depth `(r-0.5)*4*0.25` lies in [-0.5, 0.5). |
| Shapes.HeartDepth | utils/shapes.ts:39-43 | The depth `(r-0.5)*4*0.25` of a sample r in [0,1) lies in [-0.5, 0.5). |
| Shapes.HeartBufferInsideBox | utils/shapes.ts:32-44 | If sin and cos stay in [-1,1], every point of the generated heart buffer has \|x\| <= 4 and \|y\| <= 5.25. |
| Shapes.SphereBufferOnRadius | utils/shapes.ts:16-27 | If sin²+cos²=1 holds for the supplied functions, the three reals of each point in the generated sphere buffer lie at distance `radius` from the origin. |
| Shapes.HeartInsideBox | utils/shapes.ts:33-42 | If sin and cos stay in [-1,1] (which `PythagoreanUnitRange` derives from sin²+cos²=1), every heart point lies in the box \|x\| <= 4, \|y\| <= 5.25. |
| Shapes.PythagoreanUnitRange | utils/shapes.ts:35-36 | Supplied sin and cos that satisfy sin²+cos²=1 never leave [-1, 1], which is what the heart's bounds need. |
| Shapes.FistPoints | utils/shapes.ts:48-57 | The buffer has length 3*count, and with samples in [0,1) every coordinate lies within [c-0.25, c+0.25) of the matching centre component. |
| TextShape.LitRowMembers | utils/shapes.ts:79-83 | Within one scanned row, a position is collected iff it is in that row, has an even x within the scanned columns, and is lit. |
| TextShape.LitRowsMembers | utils/shapes.ts:78-84 | Over the first m scanned rows, a position is collected iff it is on the stride-2 grid, lies in those rows, and is lit. |
| TextShape.LitRowsOrdered | utils/shapes.ts:78-84 | The positions collected over any prefix of rows are strictly row-major. |
| TextShape.LitPositionsExact | utils/shapes.ts:75-84 | The collected positions are exactly the even (x,y) on the 512x256 canvas whose red byte at `(y*512+x)*4` exceeds 128, each once, in row-major order. |
| TextShape.ScanPixels | utils/shapes.ts:76-84 | The nested stride-2 loops push exactly those positions, each converted to `((x-256)/40, (128-y)/40)`. |
| TextShape.CyclePixels | utils/shapes.ts:86-91 | Point i is based on pixel `i mod len`. Its x and y lie within [-0.05, 0.05) of that pixel, and its z lies in [-0.25, 0.25). |
| TextShape.TextPoints | utils/shapes.ts:59-94 | The generator faults iff a context exists, count > 0 and no pixel is lit. Otherwise it returns 3*count reals. They are all zero when there is no 2D context. With a context and samples in [0,1), point i lies within [-0.05, 0.05) in x and y of lit pixel `i mod len` of the scan (`LitScene`, characterised by `LitPositionsExact`), and its z lies in [-0.25, 0.25). |
| ParticleCanvas.BuildShapes | components/ParticleCanvas.tsx:36-42 | Building the shape table fails only through the text generator's empty-pixel fault. Every buffer of a built table has length 3*30000. Idle gets the noise, ThumbsUp the sphere of radius 4, Victory the heart, ILoveYou the text and Fist the cluster at the origin. |
| ParticleCanvas.BuiltNoiseInCube | components/ParticleCanvas.tsx:36-37 | With samples in [0,1) the built Idle buffer lies in the cube [-7.5, 7.5)³. |
| ParticleCanvas.BuiltSphereOnRadius | components/ParticleCanvas.tsx:38 | If sin²+cos²=1 holds for the supplied functions, every point of the built ThumbsUp buffer lies at radius 4. |
| ParticleCanvas.BuiltHeartInBox | components/ParticleCanvas.tsx:39 | If sin²+cos²=1 holds and the samples lie in [0,1), every point of the built Victory buffer has \|x\| <= 4, \|y\| <= 5.25 and depth in [-0.5, 0.5). |
| ParticleCanvas.BuiltFistAtOrigin | components/ParticleCanvas.tsx:41 | With samples in [0,1) every coordinate of the built Fist buffer lies within [-0.25, 0.25) of the origin. |
| ParticleCanvas.Lerp | components/ParticleCanvas.tsx:118 | `mix(a, b, t)` equals a at t = 0 and b at t = 1. |
| ParticleCanvas.LerpWithin | components/ParticleCanvas.tsx:118 | For t in [0,1] the mixed position lies between a and b. |
| ParticleCanvas.LerpReversed | components/ParticleCanvas.tsx:118 | Mixing from a to b by t equals mixing from b to a by 1 - t. |
| ParticleCanvas.Display | components/ParticleCanvas.tsx:118 | The drawn buffer is as long as the base buffer. It equals the base at progress 0 and the target at progress 1. For progress in [0,1] every drawn coordinate lies between its base and target values. |
| ParticleCanvas.Initial | components/ParticleCanvas.tsx:73-150 | At start-up the engine is well formed, base and target are both the Idle noise shape, progress is 0 and the previous gesture is Idle. |
| ParticleCanvas.FistCenter | components/ParticleCanvas.tsx:197-202 | The mapped centre has z = 0. A hand inside the unit square maps into [-15,15] x [-10,10]. |
| ParticleCanvas.FistCenterExamples | components/ParticleCanvas.tsx:200-202 | (0.5, 0.5) maps to (0, 0, 0) and (0, 0) maps to (15, 10, 0). |
| ParticleCanvas.FistCenterMirrors | components/ParticleCanvas.tsx:200-201 | Moving the hand right moves the cluster left (a mirror image). Moving the hand down moves the cluster down. The hand's depth is ignored. |
| ParticleCanvas.TargetFor | components/ParticleCanvas.tsx:195-205 | The target always has full length. A non-fist gesture gets its precomputed shape. A fist gets a cluster within 0.25 of the mapped palm position. |
| ParticleCanvas.OnHandState | components/ParticleCanvas.tsx:191-238 | The state stays well formed and the drawn positions are identical before and after the update. A retarget happens on a changed gesture or on a fist. A retarget installs the new target, resets progress to 0 and records the gesture. Otherwise nothing changes. |
| ParticleCanvas.Animate | components/ParticleCanvas.tsx:227-234 | The new progress value is installed. Base, target and previous gesture are unchanged. At progress 1 the particles are drawn on the target. |
| ParticleCanvas.RetargetThenSettle | components/ParticleCanvas.tsx:203-234 | After a retarget to a static gesture and a finished ramp, the particles are drawn exactly on that gesture's shape. |
| App.HandleHandUpdate | App.tsx:14-26 | A detection sets the gesture and takes the palm from landmark 9, when that landmark exists. Losing the hand sets Idle and keeps the previous palm position. |
| App.DetectionForgetsPrevious | App.tsx:15-19 | The state after a detection does not depend on the state before it. |
| App.LosingHandIdempotent | App.tsx:20-25 | Losing the hand twice gives the same state as losing it once. |
| App.GestureLabel | App.tsx:28-36 | Every gesture has a caption: ILoveYou "I LOVE YOU", Victory "LOVE HEART", ThumbsUp "CELESTIAL SPHERE", Fist "GRAVITY WELL", Idle "CELESTIAL DUST". Each one is a non-empty string of capital letters and spaces. |
| App.LabelsDistinct | App.tsx:28-36 | The caption mapping is total, and different gestures get different captions. |
| App.Observe | components/HandTracker.tsx:38-45 | A frame without a hand reports nothing. A frame with a hand reports its landmarks and the classifier's gesture for them. A gesture other than Idle implies 21 landmarks. |
| App.InitialApp | App.tsx:9-12 | The initial application state is coherent. The hand is Idle with the palm at (0.5, 0.5, 0), and the particles are drawn on the Idle shape. |
| App.Launch | components/ParticleCanvas.tsx:36-104 | Start-up builds the shape table and starts the application on it. It fails exactly when the table cannot be built, and otherwise gives the coherent initial state for that table. |
| App.LaunchShowsNoise | components/ParticleCanvas.tsx:36-104 | After a successful start-up the hand is Idle and the particles are drawn on the noise generator's output, inside the cube of side 15. |
| App.Step | components/ParticleCanvas.tsx:191-238 | One tracker detection or animation frame keeps the system coherent. A detection runs the reducer on the tracker's report and then the morph effect on the new hand state, and never changes the drawn positions. A frame leaves the hand unchanged and changes only the morph state's progress. |
| App.DetectionDrivesMorph | components/ParticleCanvas.tsx:203-228 | A detection hands the classifier's gesture, or Idle when no hand is seen, to the morph engine. When the retarget rule fires, the state becomes (drawn positions, that gesture's target, 0, gesture). Otherwise the morph state is untouched. |
| App.Run | App.tsx:14-26 | Any interleaving of detections and frames keeps the buffers well formed. It also keeps the palm position defined whenever the gesture is a fist. |
| App.DetectionsNeverMoveParticles | components/ParticleCanvas.tsx:212-228 | However many gestures come and go, the drawn positions do not move without an animation frame, because every retarget starts from the drawn positions. |
| App.FistAlwaysRetargets | components/ParticleCanvas.tsx:197-208 | A detected fist always restarts the transition, even from a fist. Its target is a cluster at the mapped position of landmark 9. |
| App.VictoryFromIdleMorphsToHeart | components/ParticleCanvas.tsx:203-228 | A Victory detection while the previous gesture is Idle retargets to the heart buffer, with progress reset to 0. |
| App.LosingHandReturnsToNoise | components/ParticleCanvas.tsx:203-208 | Losing the hand while any other shape is the target retargets to the noise cloud. Losing it again changes nothing. |

## Left out

- components/HandTracker.tsx is not modelled beyond its callback. That covers MediaPipe and camera start-up through the global `window`, asynchronous frame sending, and the error and loading UI. A frame is an optional landmark sequence.
- The GSAP `expo.out` ramp (duration 1.2, `overwrite: true`) is not modelled. It is wall-clock animation in an external library, so progress arrives as `Frame(p)` events with p in [0,1].
- Three.js is not modelled: scene, camera, renderer, bloom, resize handling, the per-frame rotation, the fragment shader and the JSX/CSS. They are rendering only.
- The vertex shader's sin/cos wobble (components/ParticleCanvas.tsx:121-122) is not modelled. It is decorative and needs transcendental functions. `Display` is the position before the wobble.
- Shapes.SpherePoints: states no closed-form coordinates. sin, cos, acos and sqrt are supplied functions, so the properties hold only under the stated identities (`Pythagorean`, `CosInvertsAcos`).
- Shapes.HeartPoints: the outline coordinates rest on the supplied sin and cos, for the same reason.
- Drawing the caption onto the canvas (utils/shapes.ts:61-74) is not modelled. The RGBA byte array is an input.
- The random particle colours and sizes (components/ParticleCanvas.tsx:77-92) and the unused `lerpFactor` attribute (line 98) are not modelled. They do not affect positions.
- Floating point is not modelled: all arithmetic is over mathematical reals. That covers the Float32 buffers, the double-precision subtraction in the classifier's thumb test (services/gestureService.ts:18), the conversions to scene space, and `mix`/`lerp`.
- The source draws all randomness from one `Math.random()` stream. The model gives each generator call its own sample sequence, and keeps the order of draws within a call.
- GestureService.Recognize: the `!landmarks` null guard is not modelled separately. A missing list behaves like the empty sequence, and both give Idle.
- The `sceneRef.current` null guard at the start of the morph effect (components/ParticleCanvas.tsx:192) is not modelled. The set-up effect always runs first.
- React scheduling is not modelled. Every tracker callback is taken to produce one new `handState` object and one run of the morph effect. The reducer always builds a new object, so the effect runs on every callback.
