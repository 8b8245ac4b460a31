/**
  The single-file test script: analyse the whole file, fit the coefficients
  to MaxPadLen columns without any normalisation, add the batch and channel
  axes, and print the command at the arg-max of the model's output.
 */
module Sing {
  import opened Audio
  import opened Features
  import opened Commands

  /**
    `preprocess_audio`: `mfcc` is the raw coefficient computation, with no
    normalisation after it, so every kept entry equals the coefficient the
    analysis produced.
   */
  function PreprocessAudio(mfcc: Waveform -> Matrix, audio: Waveform): (m: Matrix)
    ensures |m| == |mfcc(audio)| && HasWidth(m, MaxPadLen)
    ensures forall i, j :: 0 <= i < |m| && 0 <= j < MaxPadLen && j < |mfcc(audio)[i]| ==>
      m[i][j] == mfcc(audio)[i][j]
    ensures forall i, j :: 0 <= i < |m| && |mfcc(audio)[i]| <= j < MaxPadLen ==> m[i][j] == 0.0
  {
    ExtractFeatures(mfcc, audio)
  }

  /**
    The printed command: one of the labels, whose probability no other
    command's exceeds, the first such in label order.
   */
  function PredictedCommand(mfcc: Waveform -> Matrix, model: Tensor -> Probabilities,
                            audio: Waveform): (command: string)
    ensures command in Labels
    ensures var p := model(AddAxes(PreprocessAudio(mfcc, audio)));
      exists k :: 0 <= k < NumCommands && Labels[k] == command
        && (forall j :: 0 <= j < NumCommands ==> p[j] <= p[k])
        && (forall j :: 0 <= j < k ==> p[j] < p[k])
  {
    var p := model(AddAxes(PreprocessAudio(mfcc, audio)));
    var k := ArgMax(p);
    assert Labels[k] in Labels;
    Labels[k]
  }
}
