# Emotion-reacting webcam app: decision core

The application samples a webcam every half second, crops a square from the
centre of the frame, runs an emotion classifier on it and shows an emoji for
the most likely of three labels (fear, happy, neutral) when the classifier is
confident enough. It exists in two near-identical variants, `emotional` and
`webcam`, which differ in three policy choices:

| variant | crop side | confidence threshold | on low confidence |
|---|---|---|---|
| `emotional` | half the shorter dimension | 0.4 | keeps the emoji shown, returns `null` |
| `webcam` | the whole shorter dimension | 0.5 | clears the emoji shown |

This project models the decision core of both:

- `Emotions` (emotions.dfy): the fixed label order, the label-to-emoji
  mapping, `Math.max`, `indexOf`, `some(value => value > t)` and
  `predictionToEmoji`. The function text is the same in both variants, so it
  is modelled once.
- `Crop` (crop.dfy): the box arithmetic of `cropImage` for any scale, on
  exact reals.
- `Emotional` (emotional.dfy) and `Webcam` (webcam.dfy): each variant's
  constants, its `cropImage`, and its component as a class `WebcamApp` with
  the fields `videoReady`, `modelReady` and `currentEmoji`. The method
  `AnalyzeFrame` is proved against the pure function `Tick`, which gives
  the new state and the returned value. The lemmas about each variant are
  stated on `Tick`.
- `Wrappers` (wrappers.dfy): the `Option` type standing for `null`.

The classifier's output is an input of the model: a sequence of exactly three
reals.

## Model

| member | source | states |
|---|---|---|
| Emotions.EmojiOf | emotional/src/App.js:9-13 | the emoji for a label position is one of the mapping's values |
| Emotions.Max | emotional/src/App.js:10 | `Math.max` of a non-empty vector is an element of it and bounds every element from above |
| Emotions.IndexOf | emotional/src/App.js:10 | `indexOf` is -1 exactly when the value is absent; otherwise it gives a position holding the value with no earlier position holding it |
| Emotions.AnyAbove | emotional/src/App.js:48 | `some(value => value > t)` holds exactly when some element exceeds t |
| Emotions.PredictionToEmoji | emotional/src/App.js:7-14 | the result is the emoji of a label at the first position holding the maximum |
| Emotions.EmojiMapping | emotional/src/App.js:9-12 | position 0 (fear) gives 😱, 1 (happy) gives 😄, 2 (neutral) gives 😐, and the three are distinct |
| Emotions.PredictionToEmojiFirstArgmax | emotional/src/App.js:9-13 | `predictionToEmoji` returns label k's emoji if and only if k is the first position of the maximum, so ties go to the earlier label |
| Emotions.AnyAboveIffMaxAbove | emotional/src/App.js:48 | "some value > t" is equivalent to "the maximum > t" |
| Crop.Min | emotional/src/App.js:18 | `Math.min` is at most both arguments and equal to one of them |
| Crop.CropBox | emotional/src/App.js:16-23 | the side is `min(H, W) * scale` and the box is centred on both axes: begin + size/2 equals H/2 and W/2 |
| Crop.CropBoxInFrame | emotional/src/App.js:18-22 | for 0 <= scale <= 1 the box lies inside the frame on both axes |
| Crop.CropBoxLeavesFrame | webcam/src/App.js:18-22 | for scale > 1 and a non-empty frame the box leaves the frame, so the code's scales are within the only safe range |
| Emotional.CropImage | emotional/src/App.js:16-24 | the side is exactly half the shorter dimension, the box is centred and inside the frame |
| Emotional.Tick | emotional/src/App.js:38-57 | readiness flags never change; an emoji is returned exactly when both refs are set and the maximum exceeds 0.4, and it becomes the shown emoji; otherwise the state is unchanged |
| Emotional.NotReadyChangesNothing | emotional/src/App.js:39 | without video or model the tick returns nothing and changes nothing |
| Emotional.ConfidentShowsFirstArgmax | emotional/src/App.js:48-52 | when the first argmax k has probability above 0.4, label k's emoji is shown and returned |
| Emotional.LowConfidenceRetains | emotional/src/App.js:53-55 | when no probability exceeds 0.4 the tick returns nothing and keeps the shown emoji |
| Emotional.TickIdempotent | emotional/src/App.js:48-55 | two ticks on the same output give the state of one |
| Emotional.TieGoesToFear | emotional/src/App.js:9-11 | [0.45, 0.45, 0.1] shows 😱: a tie goes to the earlier label |
| Emotional.WebcamApp.constructor | emotional/src/App.js:28-30 | both refs start unset and no emoji is shown |
| Emotional.WebcamApp.LoadModel | emotional/src/App.js:33-35 | the model ref becomes set and nothing else changes |
| Emotional.WebcamApp.AttachVideo | emotional/src/App.js:77 | the video ref becomes set and nothing else changes |
| Emotional.WebcamApp.AnalyzeFrame | emotional/src/App.js:38-57 | the new state and the returned value are those of `Tick` on the old state |
| Webcam.CropImage | webcam/src/App.js:16-24 | the side is the shorter dimension, the box is centred and inside the frame, and it starts at 0 along the shorter axis |
| Webcam.Tick | webcam/src/App.js:39-59 | readiness flags never change; an emoji is returned exactly when both refs are set and the maximum exceeds 0.5; once ready, the shown emoji is the returned value (cleared when none); otherwise nothing changes |
| Webcam.NotReadyChangesNothing | webcam/src/App.js:40 | without video or model the tick returns nothing and changes nothing |
| Webcam.ConfidentShowsFirstArgmax | webcam/src/App.js:49-53 | when the first argmax k has probability above 0.5, label k's emoji is shown and returned |
| Webcam.LowConfidenceClears | webcam/src/App.js:49-56 | when no probability exceeds 0.5 a ready tick clears the shown emoji |
| Webcam.ShownIffConfident | webcam/src/App.js:49-56 | once ready, an emoji is shown after the tick exactly when the maximum exceeds 0.5 |
| Webcam.TickIdempotent | webcam/src/App.js:49-56 | two ticks on the same output give the state of one |
| Webcam.Examples | webcam/src/App.js:7-13 | [0.1, 0.6, 0.3] shows 😄 and [0.3, 0.35, 0.35] shows nothing |
| Webcam.WebcamApp.constructor | webcam/src/App.js:28-30 | both refs start unset and no emoji is shown |
| Webcam.WebcamApp.LoadModel | webcam/src/App.js:33-36 | the model ref becomes set and nothing else changes |
| Webcam.WebcamApp.AttachVideo | webcam/src/App.js:89 | the video ref becomes set and nothing else changes |
| Webcam.WebcamApp.AnalyzeFrame | webcam/src/App.js:39-59 | the new state and the returned value are those of `Tick` on the old state |
| Webcam.StartupThenHappy | webcam/src/App.js:26-59 | a tick before the model loads returns and shows nothing; after video and model are in place, [0.1, 0.6, 0.3] returns and shows 😄 |

## Left out

- TensorFlow.js calls (`tf.browser.fromPixels`, `img.slice`, `resizeBilinear`, `expandDims`, `model.predict`, `dataSync`, `loadLayersModel`): foreign library code; the probability vector is an input and the crop is modelled only as its box.
- How `img.slice` rounds the fractional begin offsets and sizes the box can have in both variants (for example 482×482 in `emotional`, 480×641 in `webcam`): that rounding happens inside TensorFlow.js.
- Camera acquisition (`getUserMedia`, `video.play`) and the 2000 ms delay and 500 ms interval: browser I/O and timer scheduling. The code has no stop, teardown or overlap prevention, so the model has no such states.
- `emojisplosion`, JSX rendering, styles and `console.log`: presentation only.
- NaN and other floating-point behaviour (NaN makes `indexOf` return -1): probabilities are exact reals. Output vectors of a length other than three are excluded by a precondition, since the classifier always yields three values.
- Neither variant notifies a change of emoji, clamps an out-of-frame crop, rejects a frame with a zero side, or distinguishes load errors from inference errors, so the model has none of these. A frame with a zero side gives a zero-sized box at (H/2, W/2), and `Crop.CropBoxLeavesFrame` shows that only a scale above 1 would take the box out of the frame.
- The low-confidence branch of the `emotional` variant keeps the shown emoji, unlike the `webcam` variant, which clears it; each variant is modelled as written.
