/**
  The realtime pipeline run once per capture session: concatenate the
  captured chunks, classify every long-enough interval in order, and report
  either the labels joined by single spaces or that no valid speech segment
  was found.
 */
module Realtime {
  import opened Audio
  import opened Features
  import opened Commands
  import opened Segments
  import opened Recognition

  /**
    One label per surviving interval, in interval order; each is the label
    of that interval's arg-max and so one of the five commands.
   */
  function PredictLabels(analyse: Waveform -> Matrix, model: Tensor -> Probabilities,
                         audio: Waveform, ivs: seq<Interval>): (labels: seq<string>)
    requires ValidIntervals(ivs, |audio|)
    ensures ValidIntervals(Survivors(ivs), |audio|)
    ensures |labels| == |Survivors(ivs)|
    ensures forall k :: 0 <= k < |labels| ==>
      labels[k] == ClassifySegment(analyse, model, audio, Survivors(ivs)[k]).command
    ensures forall k :: 0 <= k < |labels| ==> labels[k] in Labels
  {
    if |ivs| == 0 then []
    else
      var rest := PredictLabels(analyse, model, audio, ivs[1..]);
      if ivs[0].Long() then [ClassifySegment(analyse, model, audio, ivs[0]).command] + rest
      else rest
  }

  /** `" ".join(words)`. */
  function Join(words: seq<string>): string
  {
    if |words| == 0 then ""
    else if |words| == 1 then words[0]
    else words[0] + " " + Join(words[1..])
  }

  /** `text.split(" ")`: the pieces between single spaces, always at least one. */
  function Split(text: string): (parts: seq<string>)
    ensures |parts| > 0
  {
    if |text| == 0 then [""]
    else
      var rest := Split(text[1..]);
      if text[0] == ' ' then [""] + rest
      else [[text[0]] + rest[0]] + rest[1..]
  }

  /** A word with no space splits to itself. */
  lemma {:induction false} SplitWord(w: string)
    requires ' ' !in w
    ensures Split(w) == [w]
  {
    if |w| > 0 {
      assert ' ' !in w[1..] by {
        forall c | c in w[1..] ensures c != ' ' { assert c in w; }
      }
      SplitWord(w[1..]);
      assert [w[0]] + w[1..] == w;
    }
  }

  /** Splitting stops at the first space. */
  lemma {:induction false} SplitAtSpace(w: string, tail: string)
    requires ' ' !in w
    ensures Split(w + " " + tail) == [w] + Split(tail)
  {
    if |w| == 0 {
      assert w + " " + tail == [' '] + tail;
      assert (w + " " + tail)[1..] == tail;
    } else {
      assert ' ' !in w[1..] by {
        forall c | c in w[1..] ensures c != ' ' { assert c in w; }
      }
      SplitAtSpace(w[1..], tail);
      assert (w + " " + tail)[1..] == w[1..] + " " + tail;
      assert [w[0]] + w[1..] == w;
    }
  }

  /** Joining space-free words and splitting the result gives the words back. */
  lemma {:induction false} SplitJoin(words: seq<string>)
    requires |words| > 0
    requires forall k :: 0 <= k < |words| ==> ' ' !in words[k]
    ensures Split(Join(words)) == words
  {
    if |words| == 1 {
      SplitWord(words[0]);
    } else {
      SplitJoin(words[1..]);
      SplitAtSpace(words[0], Join(words[1..]));
      assert [words[0]] + words[1..] == words;
    }
  }

  /**
    How a session ends: concatenating an empty chunk list raises before
    anything is printed, otherwise one of the two printed outcomes.
   */
  datatype Report = ConcatenateFailed | NoValidSegment | Recognized(text: string)

  /**
    `process_and_predict`: concatenate the chunks, classify the long
    intervals of the splitter's result, then report. With no chunk at all the
    concatenation itself fails and no interval is looked at.
   */
  function ProcessAndPredict(analyse: Waveform -> Matrix, model: Tensor -> Probabilities,
                             chunks: seq<Chunk>, ivs: seq<Interval>): (r: Report)
    requires ValidIntervals(ivs, |Concat(chunks)|)
    ensures r == ConcatenateFailed <==> |chunks| == 0
    ensures r == NoValidSegment <==> |chunks| > 0 && Survivors(ivs) == []
    ensures r.Recognized? ==>
      Split(r.text) == PredictLabels(analyse, model, Concat(chunks), ivs)
  {
    if |chunks| == 0 then ConcatenateFailed
    else
      var labels := PredictLabels(analyse, model, Concat(chunks), ivs);
      if |labels| > 0 then
        LabelsHaveNoSpace();
        SplitJoin(labels);
        Recognized(Join(labels))
      else NoValidSegment
  }

  /**
    A capture that delivered chunks but is too short to hold a minimum-length
    interval reports no valid segment.
   */
  lemma ShortCaptureReportsNothing(analyse: Waveform -> Matrix, model: Tensor -> Probabilities,
                                   chunks: seq<Chunk>, ivs: seq<Interval>)
    requires |chunks| > 0
    requires ValidIntervals(ivs, |Concat(chunks)|)
    requires |Concat(chunks)| < MinSegmentLength
    ensures ProcessAndPredict(analyse, model, chunks, ivs) == NoValidSegment
  {
    NoLongNoSurvivor(ivs);
  }
}
