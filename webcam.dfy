/**
  The `webcam` variant of the application (webcam/src/App.js): crops the
  largest centred square of the frame, reacts when some probability exceeds
  0.5, and on low confidence clears the emoji shown.
*/
module Webcam {
  import opened Wrappers
  import opened Emotions
  import opened Crop

  const CropScale: real := 1.0
  const Threshold: real := 0.5

  /**
    `cropImage`: a centred square whose side is the shorter frame dimension,
    so it spans the frame along that dimension.
  */
  function CropImage(height: nat, width: nat): (b: Box)
    ensures b.size == Min(height, width) as real
    ensures b.beginHeight + b.size / 2.0 == height as real / 2.0
    ensures b.beginWidth + b.size / 2.0 == width as real / 2.0
    ensures InFrame(b, height, width)
    ensures height <= width ==> b.beginHeight == 0.0
    ensures width <= height ==> b.beginWidth == 0.0
  {
    CropBoxInFrame(height, width, CropScale);
    CropBox(height, width, CropScale)
  }

  /** The component's state: whether both refs are set, and the emoji shown. */
  datatype Session = Session(videoReady: bool, modelReady: bool, currentEmoji: Option<string>)

  /** Both refs start as `null` and no emoji is shown. */
  const Initial: Session := Session(false, false, None)

  predicate Ready(s: Session) {
    s.videoReady && s.modelReady
  }

  /**
    One call of `analyzeFrame` when the model outputs `predictions`: the new
    state and the value returned (`undefined` becomes None).
  */
  function Tick(s: Session, predictions: seq<real>): (r: (Session, Option<string>))
    requires |predictions| == |Labels|
    ensures r.0.videoReady == s.videoReady && r.0.modelReady == s.modelReady
    ensures r.1.Some? <==> Ready(s) && Max(predictions) > Threshold
    ensures Ready(s) ==> r.0.currentEmoji == r.1
    ensures !Ready(s) ==> r.0 == s
  {
    if !s.videoReady || !s.modelReady then (s, None)
    else if AnyAbove(predictions, Threshold) then
      var predictedEmoji := PredictionToEmoji(predictions);
      (s.(currentEmoji := Some(predictedEmoji)), Some(predictedEmoji))
    else (s.(currentEmoji := None), None)
  }

  /** Before the video element and the model are both available, a tick changes nothing. */
  lemma NotReadyChangesNothing(s: Session, predictions: seq<real>)
    requires |predictions| == |Labels| && !Ready(s)
    ensures Tick(s, predictions) == (s, None)
  {
  }

  /**
    When the maximum probability at its first position `k` exceeds 0.5, the
    tick shows and returns the emoji of label `k`.
  */
  lemma ConfidentShowsFirstArgmax(s: Session, predictions: seq<real>, k: nat)
    requires |predictions| == |Labels| && Ready(s)
    requires IsFirstArgmax(predictions, k) && predictions[k] > Threshold
    ensures Tick(s, predictions) == (s.(currentEmoji := Some(EmojiOf(k))), Some(EmojiOf(k)))
  {
    PredictionToEmojiFirstArgmax(predictions, k);
    AnyAboveIffMaxAbove(predictions, Threshold);
  }

  /** When no probability exceeds 0.5, a ready tick clears the emoji shown. */
  lemma LowConfidenceClears(s: Session, predictions: seq<real>)
    requires |predictions| == |Labels| && Ready(s)
    requires forall i :: 0 <= i < |predictions| ==> predictions[i] <= Threshold
    ensures Tick(s, predictions) == (s.(currentEmoji := None), None)
  {
  }

  /** Once ready, an emoji is shown after a tick exactly when the maximum exceeds 0.5. */
  lemma ShownIffConfident(s: Session, predictions: seq<real>)
    requires |predictions| == |Labels| && Ready(s)
    ensures Tick(s, predictions).0.currentEmoji.Some? <==> Max(predictions) > Threshold
  {
  }

  /** Ticking twice on the same output leaves the state of ticking once. */
  lemma TickIdempotent(s: Session, predictions: seq<real>)
    requires |predictions| == |Labels|
    ensures Tick(Tick(s, predictions).0, predictions).0 == Tick(s, predictions).0
  {
  }

  /** [0.1, 0.6, 0.3] shows the happy emoji; [0.3, 0.35, 0.35] shows nothing. */
  lemma Examples(s: Session)
    requires Ready(s)
    ensures Tick(s, [0.1, 0.6, 0.3]).0.currentEmoji == Some(HappyEmoji)
    ensures Tick(s, [0.3, 0.35, 0.35]).0.currentEmoji == None
  {
    ConfidentShowsFirstArgmax(s, [0.1, 0.6, 0.3], 1);
  }

  /** The component: its two refs and its `currentEmoji` state. */
  class WebcamApp {
    var videoReady: bool
    var modelReady: bool
    var currentEmoji: Option<string>

    ghost function State(): Session
      reads this
    {
      Session(videoReady, modelReady, currentEmoji)
    }

    constructor ()
      ensures State() == Initial
    {
      videoReady, modelReady, currentEmoji := false, false, None;
    }

    /** `loadModel` has resolved: `modelRef.current` now holds the model. */
    method LoadModel()
      modifies this`modelReady
      ensures State() == old(State()).(modelReady := true)
    {
      modelReady := true;
    }

    /** React has mounted the `<video>` element into `videoRef.current`. */
    method AttachVideo()
      modifies this`videoReady
      ensures State() == old(State()).(videoReady := true)
    {
      videoReady := true;
    }

    /** `analyzeFrame`, given the probabilities the model outputs for the current frame. */
    method AnalyzeFrame(predictions: seq<real>) returns (r: Option<string>)
      requires |predictions| == |Labels|
      modifies this`currentEmoji
      ensures (State(), r) == Tick(old(State()), predictions)
    {
      if !videoReady || !modelReady {
        return None;
      }
      if AnyAbove(predictions, Threshold) {
        var predictedEmoji := PredictionToEmoji(predictions);
        currentEmoji := Some(predictedEmoji);
        return Some(predictedEmoji);
      } else {
        currentEmoji := None;
        return None;
      }
    }
  }

  /**
    A session from start-up: a tick before the model has loaded shows
    nothing; once the video and the model are in place, a frame the model
    scores [0.1, 0.6, 0.3] shows the happy emoji where none was shown.
  */
  method StartupThenHappy() returns (early: Option<string>, earlyShown: Option<string>, returned: Option<string>, shown: Option<string>)
    ensures early == None && earlyShown == None
    ensures returned == Some(HappyEmoji) && shown == Some(HappyEmoji)
  {
    var app := new WebcamApp();
    app.AttachVideo();
    early := app.AnalyzeFrame([0.1, 0.6, 0.3]);
    earlyShown := app.currentEmoji;
    app.LoadModel();
    Examples(app.State());
    returned := app.AnalyzeFrame([0.1, 0.6, 0.3]);
    shown := app.currentEmoji;
  }
}
