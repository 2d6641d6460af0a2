/** Concrete requests worked through the model: the guards, the strict
    maximum and its tie-break, the `predicted_classes` fallback, rounding,
    and the cases where the handler behaves unexpectedly: no confidence
    threshold, a fixed fallback confidence of 90, and an empty winning key
    rejected. */
module Scenarios {
  import opened Options
  import opened Text
  import opened WasteType
  import opened TopPrediction
  import opened Upload
  import Tips

  const Configured := Request(true, Some("waste-detect"), Some("1"), Some("key"))

  /** Half-up rounding of percentages: 0.005 gives 1, not 0. */
  lemma RoundingExamples()
    ensures Percent(0.005) == 1 && Percent(0.004) == 0 && Percent(0.92) == 92 && Percent(1.0) == 100
  {
  }

  /** No file: 400 "No file uploaded.", whatever the environment. */
  lemma NoFileScenario(reply: Reply)
    ensures var o := Classify(Request(false, None, None, None), reply);
      Status(o) == 400 && BodyKey(o) == "msg" && Message(o) == "No file uploaded."
  {
  }

  /** Model name unset: 500 before any reply is consulted. */
  lemma MissingModelScenario(reply: Reply)
    ensures var o := Classify(Request(true, None, Some("1"), Some("key")), reply);
      Status(o) == 500 && BodyKey(o) == "error" && Message(o) == "Server configuration error"
  {
  }

  /** The strictly greatest confidence wins: "plastic_bottle" (0.92) over
      "paper_scrap" (0.40), reported as 92 in the plastic category. */
  lemma StrictMaximumScenario()
    ensures var o := Classify(Configured, Reply(Some([Entry("plastic_bottle", Some(0.92)), Entry("paper_scrap", Some(0.40))]), None));
      o.Classified? && o.result.name == "plastic_bottle" && o.result.confidence == 92
      && o.result.category == Tips.Table["plastic"].category
      && o.result.impact == Tips.Table["plastic"].impact
  {
    var entries := [Entry("plastic_bottle", Some(0.92)), Entry("paper_scrap", Some(0.40))];
    assert ScanPrefix(entries, 1) == Scan(Some(0), 0.92);
    assert ScanPrefix(entries, 2) == Scan(Some(0), 0.92);
    PlasticBottleIsPlastic();
    assert Percent(0.92) == 92;
  }

  /** "plastic_bottle" contains "plastic". */
  lemma PlasticBottleIsPlastic()
    ensures MapWasteType("plastic_bottle") == Plastic
  {
    var low := "plastic_bottle";
    NoUpperLowerFixed(low);
    assert OccursAt("plastic", low, 0);
    PlasticAnyCase(low);
  }

  /** A label from `predicted_classes` is reported with confidence 90 and
      its category, without any threshold. */
  lemma FallbackLabelScenario()
    ensures var o := Classify(Configured, Reply(None, Some(["metal_can"])));
      o.Classified? && o.result.name == "metal_can" && o.result.confidence == 90
      && o.result.tips == Tips.Table["metal"].tips
  {
    MetalCanIsMetal();
  }

  /** "metal_can" contains "metal" and none of the earlier keywords. */
  lemma MetalCanIsMetal()
    ensures MapWasteType("metal_can") == Metal
  {
    var low := "metal_can";
    NoUpperLowerFixed(low);
    assert Fires(low, Metal) by {
      assert OccursAt("metal", low, 0);
      assert "metal" in Keywords(Metal);
    }
    assert !Fires(low, Plastic) by { RuleSilent(low, Plastic, 0); }
    assert !Fires(low, Paper) by { RuleSilent(low, Paper, 0); }
    assert !Fires(low, Cardboard) by { RuleSilent(low, Cardboard, 4); }
    DecidedBy(low, Metal);
  }

  /** An empty `predictions` object with an empty first fallback label is
      rejected with 400 "No object detected or low confidence.". */
  lemma EmptyFallbackScenario()
    ensures Classify(Configured, Reply(Some([]), Some([""]))) == NoPrediction(NoDetectionMsg)
  {
  }

  /** There is no confidence threshold: a single detection at 0.3 is
      reported with confidence 30. */
  lemma LowConfidenceAccepted()
    ensures var o := Classify(Configured, Reply(Some([Entry("glass_jar", Some(0.3))]), None));
      o.Classified? && o.result.name == "glass_jar" && o.result.confidence == 30
  {
    var entries := [Entry("glass_jar", Some(0.3))];
    assert ScanPrefix(entries, 1) == Scan(Some(0), 0.3);
    assert Percent(0.3) == 30;
  }

  /** On equal confidences the first key is kept. */
  lemma TieScenario()
    ensures var o := Classify(Configured, Reply(Some([Entry("can", Some(0.5)), Entry("jar", Some(0.5))]), None));
      o.Classified? && o.result.name == "can" && o.result.confidence == 50
  {
    var entries := [Entry("can", Some(0.5)), Entry("jar", Some(0.5))];
    assert ScanPrefix(entries, 1) == Scan(Some(0), 0.5);
    assert ScanPrefix(entries, 2) == Scan(Some(0), 0.5);
    assert Percent(0.5) == 50;
  }

  /** The check on the winner is a truthiness check: a winning key that is
      the empty string is rejected like no winner at all. */
  lemma EmptyKeyRejected()
    ensures Classify(Configured, Reply(Some([Entry("", Some(0.9))]), None)) == NoPrediction(NoTopMsg)
  {
  }

  /** All confidences at 0 or missing: nothing beats the seed 0. */
  lemma ZeroScoresRejected()
    ensures Classify(Configured, Reply(Some([Entry("can", Some(0.0)), Entry("jar", None)]), Some(["can"])))
      == NoPrediction(NoTopMsg)
  {
    var entries := [Entry("can", Some(0.0)), Entry("jar", None)];
    assert ScanPrefix(entries, 1) == Scan(None, 0.0);
    assert ScanPrefix(entries, 2) == Scan(None, 0.0);
  }
}
