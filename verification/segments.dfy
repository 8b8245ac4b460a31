/**
  Speech intervals returned by the silence splitter and the minimum-length
  policy both pipelines apply before classifying anything.
 */
module Segments {

  /** Intervals of fewer samples than this are skipped without error. */
  const MinSegmentLength: int := 200

  /** A half-open sample range [start, end) of the waveform. */
  datatype Interval = Interval(start: int, end: int)
  {
    /** Long enough to be classified. */
    predicate Long() { end - start >= MinSegmentLength }
  }

  /** Every interval lies inside a waveform of n samples, as the splitter produces them. */
  predicate ValidIntervals(ivs: seq<Interval>, n: nat)
  {
    forall k :: 0 <= k < |ivs| ==> 0 <= ivs[k].start <= ivs[k].end <= n
  }

  /** Start positions never decrease along the list, as the splitter returns them. */
  predicate Ascending(ivs: seq<Interval>)
  {
    forall a, b :: 0 <= a < b < |ivs| ==> ivs[a].start <= ivs[b].start
  }

  /**
    The intervals that reach classification, in their original order: every
    survivor is long and, like the splitter's intervals, inside the waveform.
   */
  function Survivors(ivs: seq<Interval>): (r: seq<Interval>)
    ensures |r| <= |ivs|
    ensures forall k :: 0 <= k < |r| ==> r[k].Long()
    ensures forall n: nat :: ValidIntervals(ivs, n) ==> ValidIntervals(r, n)
  {
    if |ivs| == 0 then []
    else
      assert forall n: nat :: ValidIntervals(ivs, n) ==> ValidIntervals(ivs[1..], n);
      if ivs[0].Long() then [ivs[0]] + Survivors(ivs[1..])
      else Survivors(ivs[1..])
  }

  /** Every survivor is one of the intervals, and every long interval survives. */
  lemma {:induction false} SurvivorsMembers(ivs: seq<Interval>)
    ensures forall k :: 0 <= k < |Survivors(ivs)| ==> Survivors(ivs)[k] in ivs
    ensures forall iv :: iv in ivs && iv.Long() ==> iv in Survivors(ivs)
  {
    if |ivs| > 0 {
      SurvivorsMembers(ivs[1..]);
      forall iv | iv in ivs && iv.Long() ensures iv in Survivors(ivs) {
        if iv != ivs[0] {
          assert iv in ivs[1..];
        }
      }
    }
  }

  /**
    Positions (0-based) of the long intervals among ivs[from..], ascending:
    the `enumerate` index of every interval the batch loop keeps.
   */
  function SurvivorIndices(ivs: seq<Interval>, from: nat): (idx: seq<nat>)
    requires from <= |ivs|
    ensures forall k :: 0 <= k < |idx| ==> from <= idx[k] < |ivs| && ivs[idx[k]].Long()
    ensures forall a, b :: 0 <= a < b < |idx| ==> idx[a] < idx[b]
    decreases |ivs| - from
  {
    if from == |ivs| then []
    else if ivs[from].Long() then [from] + SurvivorIndices(ivs, from + 1)
    else SurvivorIndices(ivs, from + 1)
  }

  /** No long interval is skipped: every long position from `from` on is kept. */
  lemma {:induction false} SurvivorIndexOf(ivs: seq<Interval>, from: nat, i: nat)
    requires from <= i < |ivs| && ivs[i].Long()
    ensures i in SurvivorIndices(ivs, from)
    decreases |ivs| - from
  {
    if i > from {
      SurvivorIndexOf(ivs, from + 1, i);
    }
  }

  /** The survivors are exactly the intervals at the surviving positions, in the same order. */
  lemma SurvivorsAtIndices(ivs: seq<Interval>, from: nat)
    requires from <= |ivs|
    ensures |Survivors(ivs[from..])| == |SurvivorIndices(ivs, from)|
    ensures forall k :: 0 <= k < |SurvivorIndices(ivs, from)| ==>
      Survivors(ivs[from..])[k] == ivs[SurvivorIndices(ivs, from)[k]]
  {
    SurvivorCount(ivs, from);
    forall k | 0 <= k < |SurvivorIndices(ivs, from)|
      ensures Survivors(ivs[from..])[k] == ivs[SurvivorIndices(ivs, from)[k]]
    {
      SurvivorAt(ivs, from, k);
    }
  }

  /** As many intervals survive as there are surviving positions. */
  lemma {:induction false} SurvivorCount(ivs: seq<Interval>, from: nat)
    requires from <= |ivs|
    ensures |Survivors(ivs[from..])| == |SurvivorIndices(ivs, from)|
    decreases |ivs| - from
  {
    if from < |ivs| {
      assert ivs[from..][1..] == ivs[from + 1..];
      SurvivorCount(ivs, from + 1);
    }
  }

  /** The k-th survivor is the interval at the k-th surviving position. */
  lemma {:induction false} SurvivorAt(ivs: seq<Interval>, from: nat, k: nat)
    requires from <= |ivs| && k < |SurvivorIndices(ivs, from)|
    ensures k < |Survivors(ivs[from..])|
    ensures Survivors(ivs[from..])[k] == ivs[SurvivorIndices(ivs, from)[k]]
    decreases |ivs| - from
  {
    SurvivorCount(ivs, from);
    var rest := ivs[from + 1..];
    assert ivs[from..][1..] == rest;
    if ivs[from].Long() {
      assert Survivors(ivs[from..]) == [ivs[from]] + Survivors(rest);
      assert SurvivorIndices(ivs, from) == [from] + SurvivorIndices(ivs, from + 1);
      if k > 0 {
        SurvivorAt(ivs, from + 1, k - 1);
      }
    } else {
      assert Survivors(ivs[from..]) == Survivors(rest);
      SurvivorAt(ivs, from + 1, k);
    }
  }

  /** Filtering keeps the start order of ascending intervals. */
  lemma {:induction false} SurvivorsAscending(ivs: seq<Interval>)
    requires Ascending(ivs)
    ensures Ascending(Survivors(ivs))
  {
    SurvivorsAtIndices(ivs, 0);
    assert ivs[0..] == ivs;
  }

  /** With no interval long enough, nothing at all is classified. */
  lemma {:induction false} NoLongNoSurvivor(ivs: seq<Interval>)
    requires forall k :: 0 <= k < |ivs| ==> !ivs[k].Long()
    ensures Survivors(ivs) == []
  {
    if |ivs| > 0 {
      NoLongNoSurvivor(ivs[1..]);
    }
  }
}

/**
  Classifying one interval: slice the waveform, extract the fitted feature
  matrix, add the batch and channel axes, run the opaque model and read the
  arg-max. `analyse` is the opaque coefficient computation plus normalisation.
 */
module Recognition {
  import opened Audio
  import opened Features
  import opened Commands
  import opened Segments

  /** The segment's samples, `audio[start:end]`. */
  function Slice(audio: Waveform, iv: Interval): (seg: Waveform)
    requires 0 <= iv.start <= iv.end <= |audio|
    ensures |seg| == iv.end - iv.start
    ensures audio[..iv.start] + seg + audio[iv.end..] == audio
  {
    audio[iv.start..iv.end]
  }

  /** Sample k of the segment is sample start + k of the waveform. */
  lemma SliceSample(audio: Waveform, iv: Interval, k: nat)
    requires 0 <= iv.start <= iv.end <= |audio| && k < iv.end - iv.start
    ensures Slice(audio, iv)[k] == audio[iv.start + k]
  {
    var seg := Slice(audio, iv);
    assert (audio[..iv.start] + seg)[iv.start + k] == seg[k];
  }

  /** The tensor handed to the model for one interval. */
  function ModelInput(analyse: Waveform -> Matrix, audio: Waveform, iv: Interval): Tensor
    requires 0 <= iv.start <= iv.end <= |audio|
  {
    AddAxes(ExtractFeatures(analyse, Slice(audio, iv)))
  }

  /**
    Every tensor that reaches the model has shape
    (1, coefficient rows, MaxPadLen, 1) and holds the fitted matrix unchanged.
   */
  lemma ModelInputShape(analyse: Waveform -> Matrix, audio: Waveform, iv: Interval)
    requires 0 <= iv.start <= iv.end <= |audio|
    ensures HasShape(ModelInput(analyse, audio, iv), 1, |analyse(Slice(audio, iv))|, MaxPadLen, 1)
    ensures Squeezable(ModelInput(analyse, audio, iv))
    ensures DropAxes(ModelInput(analyse, audio, iv)) == ExtractFeatures(analyse, Slice(audio, iv))
  {
    var m := ExtractFeatures(analyse, Slice(audio, iv));
    DropAddAxes(m);
    AddAxesShape(m);
  }

  /** The prediction for one interval. */
  function ClassifySegment(analyse: Waveform -> Matrix, model: Tensor -> Probabilities,
                           audio: Waveform, iv: Interval): Prediction
    requires 0 <= iv.start <= iv.end <= |audio|
  {
    Classify(model(ModelInput(analyse, audio, iv)))
  }
}
