/**
  The label order, the label-to-emoji mapping and the decision on a
  probability vector, shared by both variants of the application
  (`predictionToEmoji` and the `some(value => value > t)` test read the same
  in emotional/src/App.js and webcam/src/App.js).
  Probabilities are exact reals: NaN and other floating-point cases are not
  modelled.
*/
module Emotions {
  /** The classifier's output labels, in the order of its output vector. */
  const Labels: seq<string> := ["fear", "happy", "neutral"]

  const FearEmoji: string := "\U{1f631}"
  const HappyEmoji: string := "\U{1f604}"
  const NeutralEmoji: string := "\U{1f610}"

  /** The label-to-emoji mapping, keyed by label name. */
  const EmotionEmojiMapping: map<string, string> :=
    map["happy" := HappyEmoji, "neutral" := NeutralEmoji, "fear" := FearEmoji]

  /** The emoji shown for the label at position `k` of the output vector. */
  function EmojiOf(k: nat): (e: string)
    requires k < |Labels|
    ensures e in EmotionEmojiMapping.Values
  {
    EmotionEmojiMapping[Labels[k]]
  }

  /** `Math.max(...s)` on a non-empty sequence of reals. */
  function Max(s: seq<real>): (m: real)
    requires |s| > 0
    ensures m in s
    ensures forall i :: 0 <= i < |s| ==> s[i] <= m
  {
    if |s| == 1 then s[0]
    else
      var rest := Max(s[1..]);
      if s[0] >= rest then s[0] else rest
  }

  /** `s.indexOf(x)`: the first position holding `x`, or -1 when there is none. */
  function IndexOf(s: seq<real>, x: real): (i: int)
    ensures -1 <= i < |s|
    ensures i == -1 <==> x !in s
    ensures 0 <= i ==> s[i] == x && forall j :: 0 <= j < i ==> s[j] != x
  {
    if |s| == 0 then -1
    else if s[0] == x then 0
    else
      var k := IndexOf(s[1..], x);
      if k == -1 then -1 else k + 1
  }

  /** `s.some(value => value > t)`. */
  function AnyAbove(s: seq<real>, t: real): (b: bool)
    ensures b <==> exists i :: 0 <= i < |s| && s[i] > t
  {
    |s| > 0 && (s[0] > t || AnyAbove(s[1..], t))
  }

  /** Position `k` holds the maximum of `p` and no earlier position does. */
  ghost predicate IsFirstArgmax(p: seq<real>, k: int) {
    0 <= k < |p|
    && (forall j :: 0 <= j < |p| ==> p[j] <= p[k])
    && (forall j :: 0 <= j < k ==> p[j] < p[k])
  }

  /**
    `predictionToEmoji`: the emoji of the label at the first position holding
    the largest probability.
  */
  function PredictionToEmoji(predictions: seq<real>): (r: string)
    requires |predictions| == |Labels|
    ensures exists k :: IsFirstArgmax(predictions, k) && r == EmojiOf(k)
  {
    var highestIndex := IndexOf(predictions, Max(predictions));
    EmojiOf(highestIndex)
  }

  /** The mapping sends fear, happy and neutral to three different emojis. */
  lemma EmojiMapping()
    ensures EmojiOf(0) == FearEmoji && EmojiOf(1) == HappyEmoji && EmojiOf(2) == NeutralEmoji
    ensures FearEmoji != HappyEmoji && HappyEmoji != NeutralEmoji && FearEmoji != NeutralEmoji
  {
  }

  /**
    `predictionToEmoji` returns the emoji of label `k` exactly when `k` is the
    first position holding the maximum, so ties go to the earlier label.
  */
  lemma PredictionToEmojiFirstArgmax(p: seq<real>, k: int)
    requires |p| == |Labels| && 0 <= k < |Labels|
    ensures PredictionToEmoji(p) == EmojiOf(k) <==> IsFirstArgmax(p, k)
  {
    var k0 := IndexOf(p, Max(p));
    assert IsFirstArgmax(p, k0);
    EmojiMapping();
    if IsFirstArgmax(p, k) {
      assert p[k] == Max(p);
    }
  }

  /** "Some probability exceeds t" holds exactly when the maximum exceeds t. */
  lemma AnyAboveIffMaxAbove(s: seq<real>, t: real)
    requires |s| > 0
    ensures AnyAbove(s, t) <==> Max(s) > t
  {
    if Max(s) > t {
      var j := IndexOf(s, Max(s));
      assert s[j] > t;
    }
  }
}
