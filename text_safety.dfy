/** `TextSafetyTool.check`: turn the offensive-speech classifier's output into
    a verdict `{is_safe, risk_category, confidence}`. The classifier itself is
    outside the model; its outcome (a list of label/score predictions, or the
    message of the exception it raised) is the input. */
module TextSafety {
  import opened Wrappers
  import opened Strings

  datatype Prediction = Prediction(labelText: string, score: real)

  datatype Verdict = Verdict(isSafe: bool, riskCategory: string, confidence: real)

  const OffensiveLabel: string := "offensive"

  /** The fail-open answer when classification raises, including the
      `IndexError` of an empty prediction list. */
  const ErrorVerdict: Verdict := Verdict(true, "Error", 0.0)

  /** Unsafe exactly when the classifier answered and its first label,
      lower-cased, contains "offensive"; the category is Error exactly when it
      failed or answered nothing; otherwise the confidence is the first score. */
  function Check(classified: Result<seq<Prediction>, string>): (v: Verdict)
    ensures !v.isSafe <==>
      classified.Success? && |classified.value| > 0 &&
      Contains(Lower(classified.value[0].labelText), OffensiveLabel)
    ensures v.riskCategory == "Error" <==> classified.Failure? || |classified.value| == 0
    ensures v.riskCategory == "Error" ==> v == Verdict(true, "Error", 0.0)
    ensures v.riskCategory != "Error" ==>
      v.confidence == classified.value[0].score &&
      v.riskCategory == (if v.isSafe then "None" else "Offensive")
  {
    if classified.Failure? || |classified.value| == 0 then ErrorVerdict
    else
      var result := classified.value[0];
      var lowered := Lower(result.labelText);
      var isSafe := !Contains(lowered, OffensiveLabel);
      var riskCategory := if isSafe then "None" else "Offensive";
      Verdict(isSafe, riskCategory, result.score)
  }

  /** A first label containing "offensive" after lower-casing is flagged. */
  lemma OffensiveIsFlagged(top: Prediction, rest: seq<Prediction>)
    requires Contains(Lower(top.labelText), OffensiveLabel)
    ensures Check(Success([top] + rest)) == Verdict(false, "Offensive", top.score)
  {
  }

  /** Every other first label is safe, with category "None". */
  lemma OtherLabelsAreSafe(top: Prediction, rest: seq<Prediction>)
    requires !Contains(Lower(top.labelText), OffensiveLabel)
    ensures Check(Success([top] + rest)) == Verdict(true, "None", top.score)
  {
  }

  /** The verdict is unsafe exactly when the classifier answered and its first
      label mentions "offensive"; a classifier failure never blocks. */
  lemma UnsafeIff(classified: Result<seq<Prediction>, string>)
    ensures !Check(classified).isSafe <==>
      classified.Success? && |classified.value| > 0 &&
      Contains(Lower(classified.value[0].labelText), OffensiveLabel)
    ensures Check(classified).riskCategory == "Error" <==>
      classified.Failure? || |classified.value| == 0
  {
  }

  /** Failure, from the classifier or from an empty prediction list, fails open. */
  lemma FailsOpen(classified: Result<seq<Prediction>, string>)
    requires classified.Failure? || classified.value == []
    ensures Check(classified) == Verdict(true, "Error", 0.0)
  {
  }

  /** On success the confidence is the first prediction's score, unchanged,
      and no prediction after the first is consulted. */
  lemma OnlyFirstPredictionCounts(top: Prediction, rest1: seq<Prediction>, rest2: seq<Prediction>)
    ensures Check(Success([top] + rest1)) == Check(Success([top] + rest2))
    ensures Check(Success([top] + rest1)).confidence == top.score
  {
  }

  /** The test ignores case: labels that agree up to ASCII case get the same
      verdict. */
  lemma CaseInsensitive(labelA: string, labelB: string, score: real, rest: seq<Prediction>)
    requires Lower(labelA) == Lower(labelB)
    ensures Check(Success([Prediction(labelA, score)] + rest))
         == Check(Success([Prediction(labelB, score)] + rest))
  {
  }

  /** In particular a label holding "offensive" in any mixture of case at
      position `i` is flagged. */
  lemma OffensiveInAnyCase(top: Prediction, rest: seq<Prediction>, i: nat)
    requires i + |OffensiveLabel| <= |top.labelText|
    requires Lower(top.labelText[i..i + |OffensiveLabel|]) == OffensiveLabel
    ensures !Check(Success([top] + rest)).isSafe
    ensures Check(Success([top] + rest)).riskCategory == "Offensive"
  {
    var n := |OffensiveLabel|;
    LowerSlice(top.labelText, i, i + n);
    assert OffensiveLabel <= Lower(top.labelText)[i..];
  }
}
