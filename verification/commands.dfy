/**
  The closed label set and the reading of the classifier's probability vector:
  the label is the command at the arg-max position, the confidence is the
  probability found there.
 */
module Commands {

  /** The command vocabulary, in the order the classifier's outputs are trained on. */
  const Labels: seq<string> := ["dur", "duz_devam_et", "geri_don", "sag_don", "sola_don"]
  const NumCommands: nat := 5

  /** The classifier's output for one input: one probability per command. */
  type Probabilities = p: seq<real> | |p| == NumCommands witness [0.0, 0.0, 0.0, 0.0, 0.0]

  /**
    Index of the first maximal entry among p[..n], as `np.argmax` picks it:
    later entries replace the current best only when strictly larger.
   */
  function ArgMaxPrefix(p: seq<real>, n: nat): (k: nat)
    requires 0 < n <= |p|
    ensures k < n
    ensures forall j :: 0 <= j < n ==> p[j] <= p[k]
    ensures forall j :: 0 <= j < k ==> p[j] < p[k]
  {
    if n == 1 then 0
    else
      var best := ArgMaxPrefix(p, n - 1);
      if p[n - 1] > p[best] then n - 1 else best
  }

  /** Position of the first maximal entry of a non-empty vector. */
  function ArgMax(p: seq<real>): (k: nat)
    requires |p| > 0
    ensures k < |p|
    ensures forall j :: 0 <= j < |p| ==> p[j] <= p[k]
    ensures forall j :: 0 <= j < k ==> p[j] < p[k]
  {
    ArgMaxPrefix(p, |p|)
  }

  /** Label and confidence read off one probability vector. */
  datatype Prediction = Prediction(index: nat, command: string, confidence: real)

  /**
    The label is the command at the arg-max position and the confidence is
    the probability there, which no other entry exceeds.
   */
  function Classify(p: Probabilities): (r: Prediction)
    ensures r.index < NumCommands && r.command == Labels[r.index] && r.command in Labels
    ensures r.confidence == p[r.index]
    ensures forall j :: 0 <= j < |p| ==> p[j] <= r.confidence
    ensures forall j :: 0 <= j < r.index ==> p[j] < r.confidence
  {
    var k := ArgMax(p);
    Prediction(k, Labels[k], p[k])
  }

  /** No label contains a space, so labels joined by spaces can be split back. */
  lemma LabelsHaveNoSpace()
    ensures forall l :: l in Labels ==> ' ' !in l
  {
    assert Labels[0] == "dur" && Labels[1] == "duz_devam_et" && Labels[2] == "geri_don";
    assert Labels[3] == "sag_don" && Labels[4] == "sola_don";
  }

  /** The five labels are distinct, so an index names exactly one command. */
  lemma LabelsDistinct()
    ensures forall i, j :: 0 <= i < j < |Labels| ==> Labels[i] != Labels[j]
  {
  }
}
