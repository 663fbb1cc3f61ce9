/**
 * Folding the classifier's output into the set of detected foods. The
 * classifier is outside the model: its output is given as one sequence of
 * box labels per result, each label already looked up in the model's class
 * names (`model.names[int(box.cls)]`).
 */
module Detection {

  /** The labels of the boxes of one result, as a set. */
  function Elements(boxes: seq<string>): (s: set<string>)
    ensures forall l :: l in s <==> l in boxes
  {
    set l | l in boxes
  }

  /** The labels of all boxes of all results, as a set: it holds every result's labels. */
  function Labels(results: seq<seq<string>>): (s: set<string>)
    ensures forall i :: 0 <= i < |results| ==> Elements(results[i]) <= s
  {
    if results == [] then {}
    else Labels(results[..|results| - 1]) + Elements(results[|results| - 1])
  }

  /** A label is detected exactly when some box of some result carries it. */
  lemma {:induction false} LabelsExactly(results: seq<seq<string>>)
    ensures forall l :: l in Labels(results) <==>
              exists i, j :: 0 <= i < |results| && 0 <= j < |results[i]| && results[i][j] == l
  {
    if results != [] {
      var n := |results| - 1;
      LabelsExactly(results[..n]);
      assert forall i :: 0 <= i < n ==> results[..n][i] == results[i];
      forall l | l in Labels(results)
        ensures exists i, j :: 0 <= i < |results| && 0 <= j < |results[i]| && results[i][j] == l
      {
        if l !in Labels(results[..n]) {
          var j :| 0 <= j < |results[n]| && results[n][j] == l;
        }
      }
    }
  }

  /** The labels of two batches of results are the labels of each: order and repetition do not matter. */
  lemma {:induction false} LabelsOfConcatenation(a: seq<seq<string>>, b: seq<seq<string>>)
    ensures Labels(a + b) == Labels(a) + Labels(b)
  {
    if b == [] {
      assert a + b == a;
    } else {
      var n := |b| - 1;
      assert (a + b)[..|a + b| - 1] == a + b[..n];
      LabelsOfConcatenation(a, b[..n]);
    }
  }

  /** Results without any box detect nothing; that is an ordinary outcome, not an error. */
  lemma {:induction false} NoBoxesNoLabels(results: seq<seq<string>>)
    requires forall i :: 0 <= i < |results| ==> results[i] == []
    ensures Labels(results) == {}
  {
    if results != [] {
      NoBoxesNoLabels(results[..|results| - 1]);
    }
  }

  /**
   * `detected_objects`: start from the empty set and add the label of every
   * box of every result.
   */
  method DetectedObjects(results: seq<seq<string>>) returns (detected: set<string>)
    ensures detected == Labels(results)
  {
    detected := {};
    for i := 0 to |results|
      invariant detected == Labels(results[..i])
    {
      ghost var before := detected;
      var boxes := results[i];
      for j := 0 to |boxes|
        invariant detected == before + Elements(boxes[..j])
      {
        detected := detected + {boxes[j]};
        assert boxes[..j + 1] == boxes[..j] + [boxes[j]];
      }
      assert boxes[..|boxes|] == boxes;
      assert results[..i + 1][..i] == results[..i];
    }
    assert results[..|results|] == results;
  }
}
