/** The confidence-gated decision of `/predict` (app.py lines 109-128): the
    classifier's eight probabilities become percentages rounded to two
    decimals, the first maximal probability picks the label, and a rounded top
    percentage below 20 turns the verdict into "uncertain".

    Percentages are integer hundredths of a percent (1999 stands for 19.99). */
module Decision {
  import opened Wrappers

  /** The label order the classifier was trained with (app.py line 35). */
  const Emotions: seq<string> :=
    ["neutral", "calm", "happy", "sad", "angry", "fearful", "disgust", "surprised"]

  /** The confidence floor, 20 %, in hundredths of a percent. */
  const ConfidenceFloor: int := 2000

  const LowConfidence: string := "Low confidence in prediction"

  /** What the response reports: a label with its confidence, or "uncertain"
      with a message; both carry the label-to-percentage map. */
  datatype Verdict =
    | Uncertain(message: string, probabilities: map<string, int>)
    | Classified(emotion: string, confidence: int, probabilities: map<string, int>)
  {
    /** The value of the response's `emotion` key. */
    function Emotion(): string {
      if Uncertain? then "uncertain" else emotion
    }
  }

  /** Python's `round` to an integer: to the nearest, ties to the even one. */
  function RoundHalfEven(x: real): (k: int)
    ensures -0.5 <= k as real - x <= 0.5
    ensures (k as real - x == 0.5 || x - k as real == 0.5) ==> k % 2 == 0
  {
    var f := x.Floor;
    var d := x - f as real;
    if d < 0.5 then f
    else if d > 0.5 then f + 1
    else if f % 2 == 0 then f
    else f + 1
  }

  /** `round(float(p) * 100, 2)`, in hundredths of a percent. */
  function Percent(p: real): (r: int)
    ensures -0.5 <= r as real - p * 10000.0 <= 0.5
  {
    RoundHalfEven(p * 10000.0)
  }

  /** The list comprehension of line 109. */
  function Percentages(prediction: seq<real>): (r: seq<int>)
    ensures |r| == |prediction|
    ensures forall i :: 0 <= i < |r| ==> r[i] == Percent(prediction[i])
  {
    seq(|prediction|, i requires 0 <= i < |prediction| => Percent(prediction[i]))
  }

  /** `np.argmax`: the first index holding the maximum. */
  function ArgMax(s: seq<real>): (k: nat)
    requires |s| > 0
    ensures k < |s|
    ensures forall j :: 0 <= j < |s| ==> s[j] <= s[k]
    ensures forall j :: 0 <= j < k ==> s[j] < s[k]
  {
    if |s| == 1 then 0
    else
      var k := ArgMax(s[..|s| - 1]);
      if s[|s| - 1] > s[k] then |s| - 1 else k
  }

  /** `dict(zip(EMOTIONS, percentages))`: zip stops at the shorter list. */
  function Probabilities(percentages: seq<int>): (m: map<string, int>)
    ensures var n := if |percentages| < |Emotions| then |percentages| else |Emotions|;
      m.Keys == (set i | 0 <= i < n :: Emotions[i])
      && forall i :: 0 <= i < n ==> m[Emotions[i]] == percentages[i]
  {
    map i | 0 <= i < |percentages| && i < |Emotions| :: Emotions[i] := percentages[i]
  }

  /** The decision block. `None` is an exception: `np.argmax` of an empty vector
      raises, and so does `EMOTIONS[idx]` when the classifier returned more than
      eight values and the maximum lies beyond the labels. */
  function Decide(prediction: seq<real>): (r: Option<Verdict>)
    ensures r.None? <==> |prediction| == 0 || ArgMax(prediction) >= |Emotions|
  {
    if |prediction| == 0 then None
    else
      var percentages := Percentages(prediction);
      var idx := ArgMax(prediction);
      if idx >= |Emotions| then None
      else
        var confidence := percentages[idx];
        if confidence < ConfidenceFloor then
          Some(Uncertain(LowConfidence, Probabilities(percentages)))
        else
          Some(Classified(Emotions[idx], confidence, Probabilities(percentages)))
  }

  /** Rounding never reverses an order: a larger probability never gets a
      smaller percentage. */
  lemma RoundMonotone(x: real, y: real)
    requires x <= y
    ensures RoundHalfEven(x) <= RoundHalfEven(y)
  {
  }

  /** With the classifier's eight outputs the decision never raises, and the
      map holds exactly the eight labels, each with its rounded percentage. */
  lemma DecideOnEight(prediction: seq<real>)
    requires |prediction| == |Emotions|
    ensures Decide(prediction).Some?
    ensures var m := Decide(prediction).value.probabilities;
      m.Keys == (set i | 0 <= i < |Emotions| :: Emotions[i])
      && forall i :: 0 <= i < |Emotions| ==> m[Emotions[i]] == Percent(prediction[i])
  {
  }

  /** The whole rule, stated from the first maximal index i: the verdict is
      "uncertain" exactly when the rounded percentage at i is below the floor,
      and otherwise names label i with that percentage as its confidence. */
  lemma DecisionRule(prediction: seq<real>, i: nat)
    requires i < |prediction| && i < |Emotions|
    requires forall j :: 0 <= j < |prediction| ==> prediction[j] <= prediction[i]
    requires forall j :: 0 <= j < i ==> prediction[j] < prediction[i]
    ensures var m := Probabilities(Percentages(prediction));
      Decide(prediction) ==
        if Percent(prediction[i]) < ConfidenceFloor then Some(Uncertain(LowConfidence, m))
        else Some(Classified(Emotions[i], Percent(prediction[i]), m))
  {
  }

  /** A reported confidence is the largest of the reported percentages. */
  lemma ConfidenceIsTopPercentage(prediction: seq<real>, j: nat)
    requires Decide(prediction).Some? && Decide(prediction).value.Classified?
    requires j < |prediction|
    ensures Percent(prediction[j]) <= Decide(prediction).value.confidence
  {
  }

  /** The label is chosen on the raw probabilities, not on the rounded ones:
      two labels that both round to 30.00 % are told apart by the probability,
      and the later one wins when its probability is larger. */
  lemma ArgMaxUsesRawProbabilities()
    ensures var p := [0.300001, 0.300002, 0.1, 0.1, 0.1, 0.05, 0.025, 0.024997];
      Percent(p[0]) == Percent(p[1]) == 3000
      && Decide(p).Some? && Decide(p).value.Emotion() == "calm"
  {
  }

  /** The general form: when an earlier label i rounds to the same percentage
      as the first maximum j, the verdict still names label j, not label i. */
  lemma RoundedTieFollowsRawOrder(prediction: seq<real>, i: nat, j: nat)
    requires i < j < |prediction| && j < |Emotions|
    requires forall k :: 0 <= k < |prediction| ==> prediction[k] <= prediction[j]
    requires forall k :: 0 <= k < j ==> prediction[k] < prediction[j]
    requires Percent(prediction[i]) == Percent(prediction[j]) >= ConfidenceFloor
    ensures Decide(prediction).Some? && Decide(prediction).value.Classified?
    ensures Decide(prediction).value.emotion == Emotions[j] != Emotions[i]
    ensures Decide(prediction).value.probabilities[Emotions[i]]
         == Decide(prediction).value.probabilities[Emotions[j]]
  {
    DecisionRule(prediction, j);
  }

  /** The floor is applied to the rounded percentage: a top probability of
      0.19996 is 19.996 %, which rounds to 20.00 % and is therefore reported. */
  lemma FloorUsesRoundedPercentage()
    ensures var p := [0.19996, 0.19, 0.18, 0.17, 0.16, 0.1, 0.0, 0.00004];
      Decide(p).Some? && Decide(p).value == Classified("neutral", 2000, Decide(p).value.probabilities)
  {
    var p := [0.19996, 0.19, 0.18, 0.17, 0.16, 0.1, 0.0, 0.00004];
    DecisionRule(p, 0);
  }

  function Sum(s: seq<int>): int {
    if s == [] then 0 else Sum(s[..|s| - 1]) + s[|s| - 1]
  }

  function SumReal(s: seq<real>): real {
    if s == [] then 0.0 else SumReal(s[..|s| - 1]) + s[|s| - 1]
  }

  /** Rounding each of n probabilities moves the total by at most n/2
      hundredths of a percent. */
  lemma {:induction false} PercentagesSum(prediction: seq<real>)
    ensures -(|prediction| as real) / 2.0
         <= Sum(Percentages(prediction)) as real - 10000.0 * SumReal(prediction)
         <= (|prediction| as real) / 2.0
  {
    if prediction != [] {
      var n := |prediction|;
      var init := prediction[..n - 1];
      PercentagesSum(init);
      assert Percentages(prediction)[..n - 1] == Percentages(init);
    }
  }

  /** For a probability distribution over the eight labels the reported
      percentages add up to 100 % within 0.04 percentage points. */
  lemma PercentagesOfDistribution(prediction: seq<real>)
    requires |prediction| == |Emotions| && SumReal(prediction) == 1.0
    ensures 9996 <= Sum(Percentages(prediction)) <= 10004
  {
    PercentagesSum(prediction);
  }
}
