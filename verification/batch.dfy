/**
  The file-based batch mode: the same split, filter and classify chain over
  one pre-recorded waveform, recording for every kept interval its 1-based
  position in the splitter's list, the label, the confidence and the
  interval's start and end in seconds.
 */
module Batch {
  import opened Audio
  import opened Features
  import opened Commands
  import opened Segments
  import opened Recognition

  /** One printed line of the batch report. */
  datatype SegmentResult = SegmentResult(segment: nat, command: string, confidence: real,
                                         startTime: real, endTime: real)

  /** A sample position in seconds: exact division by the sampling rate SampleRate. */
  function Seconds(samples: int): (t: real)
    ensures t * (SampleRate as real) == samples as real
  {
    samples as real / (SampleRate as real)
  }

  /** Seconds are monotonic in the sample position. */
  lemma SecondsMonotonic(a: int, b: int)
    requires a <= b
    ensures Seconds(a) <= Seconds(b)
  {
  }

  /**
    The line recorded for the interval at 0-based position i: segment number
    i + 1, a command of the label set, the probability the model gave that
    command, which is the largest it gave that interval, and the interval's bounds in seconds, start before end.
   */
  function ResultFor(analyse: Waveform -> Matrix, model: Tensor -> Probabilities,
                     audio: Waveform, ivs: seq<Interval>, i: nat): (r: SegmentResult)
    requires i < |ivs| && ValidIntervals(ivs, |audio|)
    ensures r.segment == i + 1
    ensures r.command == ClassifySegment(analyse, model, audio, ivs[i]).command
    ensures r.command in Labels
    ensures r.confidence == ClassifySegment(analyse, model, audio, ivs[i]).confidence
    ensures forall j :: 0 <= j < NumCommands ==>
      model(ModelInput(analyse, audio, ivs[i]))[j] <= r.confidence
    ensures r.startTime * (SampleRate as real) == ivs[i].start as real
    ensures r.endTime * (SampleRate as real) == ivs[i].end as real
    ensures r.startTime <= r.endTime
  {
    var iv := ivs[i];
    var p := Classify(model(ModelInput(analyse, audio, iv)));
    SecondsMonotonic(iv.start, iv.end);
    SegmentResult(i + 1, p.command, p.confidence, Seconds(iv.start), Seconds(iv.end))
  }

  /**
    The loop of `predict_commands` from position `from` on: one result per
    long interval, in the intervals' order.
   */
  function PredictFrom(analyse: Waveform -> Matrix, model: Tensor -> Probabilities,
                       audio: Waveform, ivs: seq<Interval>, from: nat): (r: seq<SegmentResult>)
    requires from <= |ivs| && ValidIntervals(ivs, |audio|)
    ensures |r| == |SurvivorIndices(ivs, from)|
    decreases |ivs| - from
  {
    if from == |ivs| then []
    else
      var rest := PredictFrom(analyse, model, audio, ivs, from + 1);
      if ivs[from].Long() then [ResultFor(analyse, model, audio, ivs, from)] + rest
      else rest
  }

  /** The k-th result from position `from` on is the line of the k-th long interval there. */
  lemma {:induction false} PredictFromAt(analyse: Waveform -> Matrix, model: Tensor -> Probabilities,
                                         audio: Waveform, ivs: seq<Interval>, from: nat, k: nat)
    requires from <= |ivs| && ValidIntervals(ivs, |audio|)
    requires k < |SurvivorIndices(ivs, from)|
    ensures PredictFrom(analyse, model, audio, ivs, from)[k]
      == ResultFor(analyse, model, audio, ivs, SurvivorIndices(ivs, from)[k])
    decreases |ivs| - from
  {
    if from < |ivs| {
      if ivs[from].Long() {
        assert SurvivorIndices(ivs, from) == [from] + SurvivorIndices(ivs, from + 1);
        if k > 0 {
          PredictFromAt(analyse, model, audio, ivs, from + 1, k - 1);
        }
      } else {
        PredictFromAt(analyse, model, audio, ivs, from + 1, k);
      }
    }
  }

  /** The segment numbers of a result list, in order. */
  function SegmentNumbers(r: seq<SegmentResult>): (ns: seq<nat>)
    ensures |ns| == |r|
    ensures forall k :: 0 <= k < |r| ==> ns[k] == r[k].segment
  {
    seq(|r|, k requires 0 <= k < |r| => r[k].segment)
  }

  /** Every result's segment number is its interval's 1-based position. */
  lemma Numbered(analyse: Waveform -> Matrix, model: Tensor -> Probabilities,
                 audio: Waveform, ivs: seq<Interval>)
    requires ValidIntervals(ivs, |audio|)
    ensures NumberedBy(ivs, PredictFrom(analyse, model, audio, ivs, 0))
  {
    var r := PredictFrom(analyse, model, audio, ivs, 0);
    forall k | 0 <= k < |r| ensures r[k].segment == SurvivorIndices(ivs, 0)[k] + 1 {
      PredictFromAt(analyse, model, audio, ivs, 0, k);
    }
  }

  /** Results numbered by the surviving positions plus one. */
  predicate NumberedBy(ivs: seq<Interval>, r: seq<SegmentResult>)
  {
    && |r| == |SurvivorIndices(ivs, 0)|
    && forall k :: 0 <= k < |r| ==> r[k].segment == SurvivorIndices(ivs, 0)[k] + 1
  }

  /**
    Numbering results by the surviving positions plus one makes the numbers
    strictly increasing and gives a number to exactly the long intervals.
   */
  lemma NumberedBySurvivors(ivs: seq<Interval>, r: seq<SegmentResult>)
    requires NumberedBy(ivs, r)
    ensures forall a, b :: 0 <= a < b < |r| ==> r[a].segment < r[b].segment
    ensures forall k :: 0 <= k < |r| ==> 1 <= r[k].segment <= |ivs| && ivs[r[k].segment - 1].Long()
    ensures forall i :: 0 <= i < |ivs| ==> (ivs[i].Long() <==> i + 1 in SegmentNumbers(r))
  {
    forall i | 0 <= i < |ivs| ensures ivs[i].Long() <==> i + 1 in SegmentNumbers(r) {
      NumberOf(ivs, r, i);
    }
  }

  /** Interval i is long exactly when some result carries the number i + 1. */
  lemma NumberOf(ivs: seq<Interval>, r: seq<SegmentResult>, i: nat)
    requires NumberedBy(ivs, r) && i < |ivs|
    ensures ivs[i].Long() <==> i + 1 in SegmentNumbers(r)
  {
    var idx := SurvivorIndices(ivs, 0);
    var ns := SegmentNumbers(r);
    if ivs[i].Long() {
      SurvivorIndexOf(ivs, 0, i);
      var k :| 0 <= k < |idx| && idx[k] == i;
      assert ns[k] == i + 1;
    }
    if i + 1 in ns {
      var k :| 0 <= k < |ns| && ns[k] == i + 1;
      assert idx[k] == i;
    }
  }

  /**
    `predict_commands`: results in interval order with strictly increasing
    1-based segment numbers (gaps where intervals were skipped); a result
    exists exactly for the long intervals.
   */
  function PredictCommands(analyse: Waveform -> Matrix, model: Tensor -> Probabilities,
                           audio: Waveform, ivs: seq<Interval>): (r: seq<SegmentResult>)
    requires ValidIntervals(ivs, |audio|)
    ensures forall a, b :: 0 <= a < b < |r| ==> r[a].segment < r[b].segment
    ensures forall k :: 0 <= k < |r| ==> 1 <= r[k].segment <= |ivs| && ivs[r[k].segment - 1].Long()
    ensures forall i :: 0 <= i < |ivs| ==> (ivs[i].Long() <==> i + 1 in SegmentNumbers(r))
  {
    Numbered(analyse, model, audio, ivs);
    NumberedBySurvivors(ivs, PredictFrom(analyse, model, audio, ivs, 0));
    PredictFrom(analyse, model, audio, ivs, 0)
  }

  /**
    The k-th result describes the interval its segment number names: its
    label, confidence and times are those ResultFor gives that interval.
   */
  lemma ResultAt(analyse: Waveform -> Matrix, model: Tensor -> Probabilities,
                 audio: Waveform, ivs: seq<Interval>, k: nat)
    requires ValidIntervals(ivs, |audio|)
    requires k < |PredictCommands(analyse, model, audio, ivs)|
    ensures var r := PredictCommands(analyse, model, audio, ivs);
      r[k] == ResultFor(analyse, model, audio, ivs, r[k].segment - 1)
  {
    PredictFromAt(analyse, model, audio, ivs, 0, k);
  }

  /**
    The batch results carry the same commands, in the same order, as the
    realtime pipeline produces for the same intervals.
   */
  lemma CommandsMatchSurvivors(analyse: Waveform -> Matrix, model: Tensor -> Probabilities,
                               audio: Waveform, ivs: seq<Interval>, k: nat)
    requires ValidIntervals(ivs, |audio|)
    ensures |PredictCommands(analyse, model, audio, ivs)| == |Survivors(ivs)|
    ensures k < |Survivors(ivs)| ==>
      PredictCommands(analyse, model, audio, ivs)[k].command
        == ClassifySegment(analyse, model, audio, Survivors(ivs)[k]).command
  {
    SurvivorCount(ivs, 0);
    assert ivs[0..] == ivs;
    if k < |Survivors(ivs)| {
      SurvivorAt(ivs, 0, k);
      PredictFromAt(analyse, model, audio, ivs, 0, k);
    }
  }

  /** For intervals in ascending start order, the reported start times never decrease. */
  lemma StartTimesAscending(analyse: Waveform -> Matrix, model: Tensor -> Probabilities,
                            audio: Waveform, ivs: seq<Interval>, a: nat, b: nat)
    requires ValidIntervals(ivs, |audio|) && Ascending(ivs)
    requires a < b < |PredictCommands(analyse, model, audio, ivs)|
    ensures var r := PredictCommands(analyse, model, audio, ivs);
      r[a].startTime <= r[b].startTime
  {
    var r := PredictCommands(analyse, model, audio, ivs);
    ResultAt(analyse, model, audio, ivs, a);
    ResultAt(analyse, model, audio, ivs, b);
    SecondsMonotonic(ivs[r[a].segment - 1].start, ivs[r[b].segment - 1].start);
  }

  /** What `main` shows: the empty-result message, or one line per result. */
  datatype BatchOutcome = NoValidSegment | Listed(lines: seq<SegmentResult>)

  function Summarize(results: seq<SegmentResult>): (o: BatchOutcome)
    ensures o == NoValidSegment <==> |results| == 0
    ensures o.Listed? ==> o.lines == results
  {
    if |results| == 0 then NoValidSegment else Listed(results)
  }
}
