/**
  The `emotional` variant of the application (emotional/src/App.js): crops the
  centre half of the frame, reacts when some probability exceeds 0.4, and on
  low confidence keeps the emoji already shown.
*/
module Emotional {
  import opened Wrappers
  import opened Emotions
  import opened Crop

  const CropScale: real := 0.5
  const Threshold: real := 0.4

  /** `cropImage`: a centred square whose side is half the shorter frame dimension. */
  function CropImage(height: nat, width: nat): (b: Box)
    ensures 2.0 * b.size == Min(height, width) as real
    ensures b.beginHeight + b.size / 2.0 == height as real / 2.0
    ensures b.beginWidth + b.size / 2.0 == width as real / 2.0
    ensures InFrame(b, height, width)
  {
    CropBoxInFrame(height, width, CropScale);
    CropBox(height, width, CropScale)
  }

  /** The component's state: whether both refs are set, and the emoji shown. */
  datatype Session = Session(videoReady: bool, modelReady: bool, currentEmoji: Option<string>)

  /** Both refs start as `null` and no emoji is shown. */
  const Initial: Session := Session(false, false, None)

  predicate Ready(s: Session) {
    s.videoReady && s.modelReady
  }

  /**
    One call of `analyzeFrame` when the model outputs `predictions`: the new
    state and the value returned (`null` and `undefined` both become None).
  */
  function Tick(s: Session, predictions: seq<real>): (r: (Session, Option<string>))
    requires |predictions| == |Labels|
    ensures r.0.videoReady == s.videoReady && r.0.modelReady == s.modelReady
    ensures r.1.Some? <==> Ready(s) && Max(predictions) > Threshold
    ensures r.1.Some? ==> r.0.currentEmoji == r.1
    ensures r.1.None? ==> r.0 == s
  {
    if !s.videoReady || !s.modelReady then (s, None)
    else if AnyAbove(predictions, Threshold) then
      var predictedEmoji := PredictionToEmoji(predictions);
      (s.(currentEmoji := Some(predictedEmoji)), Some(predictedEmoji))
    else (s, None)
  }

  /** Before the video element and the model are both available, a tick changes nothing. */
  lemma NotReadyChangesNothing(s: Session, predictions: seq<real>)
    requires |predictions| == |Labels| && !Ready(s)
    ensures Tick(s, predictions) == (s, None)
  {
  }

  /**
    When the maximum probability at its first position `k` exceeds 0.4, the
    tick shows and returns the emoji of label `k`.
  */
  lemma ConfidentShowsFirstArgmax(s: Session, predictions: seq<real>, k: nat)
    requires |predictions| == |Labels| && Ready(s)
    requires IsFirstArgmax(predictions, k) && predictions[k] > Threshold
    ensures Tick(s, predictions) == (s.(currentEmoji := Some(EmojiOf(k))), Some(EmojiOf(k)))
  {
    PredictionToEmojiFirstArgmax(predictions, k);
    AnyAboveIffMaxAbove(predictions, Threshold);
  }

  /** When no probability exceeds 0.4, the tick returns nothing and keeps the emoji shown. */
  lemma LowConfidenceRetains(s: Session, predictions: seq<real>)
    requires |predictions| == |Labels|
    requires forall i :: 0 <= i < |predictions| ==> predictions[i] <= Threshold
    ensures Tick(s, predictions) == (s, None)
  {
  }

  /** Ticking twice on the same output leaves the state of ticking once. */
  lemma TickIdempotent(s: Session, predictions: seq<real>)
    requires |predictions| == |Labels|
    ensures Tick(Tick(s, predictions).0, predictions).0 == Tick(s, predictions).0
  {
  }

  /** Ties go to the earlier label: equal fear and happy above 0.4 give the fear emoji. */
  lemma TieGoesToFear(s: Session)
    requires Ready(s)
    ensures Tick(s, [0.45, 0.45, 0.1]).1 == Some(FearEmoji)
    ensures Tick(s, [0.45, 0.45, 0.1]).0.currentEmoji == Some(FearEmoji)
  {
    ConfidentShowsFirstArgmax(s, [0.45, 0.45, 0.1], 0);
  }

  /** The component: its two refs and its `currentEmoji` state. */
  class WebcamApp {
    var videoReady: bool
    var modelReady: bool
    var currentEmoji: Option<string>

    ghost function State(): Session
      reads this
    {
      Session(videoReady, modelReady, currentEmoji)
    }

    constructor ()
      ensures State() == Initial
    {
      videoReady, modelReady, currentEmoji := false, false, None;
    }

    /** `loadModel` has resolved: `modelRef.current` now holds the model. */
    method LoadModel()
      modifies this`modelReady
      ensures State() == old(State()).(modelReady := true)
    {
      modelReady := true;
    }

    /** React has mounted the `<video>` element into `videoRef.current`. */
    method AttachVideo()
      modifies this`videoReady
      ensures State() == old(State()).(videoReady := true)
    {
      videoReady := true;
    }

    /** `analyzeFrame`, given the probabilities the model outputs for the current frame. */
    method AnalyzeFrame(predictions: seq<real>) returns (r: Option<string>)
      requires |predictions| == |Labels|
      modifies this`currentEmoji
      ensures (State(), r) == Tick(old(State()), predictions)
    {
      if !videoReady || !modelReady {
        return None;
      }
      if AnyAbove(predictions, Threshold) {
        var predictedEmoji := PredictionToEmoji(predictions);
        currentEmoji := Some(predictedEmoji);
        return Some(predictedEmoji);
      } else {
        return None;
      }
    }
  }
}
