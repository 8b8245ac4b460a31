/**
  Fixed-width feature shaping shared by every script: a coefficient matrix
  (one row per cepstral coefficient, one column per frame) is forced to
  exactly MaxPadLen frame columns, then given batch and channel axes of size 1
  before it reaches the classifier.
 */
module Features {
  import opened Audio

  /** Number of cepstral coefficients requested from the feature extractor. */
  const NumCoefficients: nat := 40
  /** Frame count every feature matrix is padded or truncated to. */
  const MaxPadLen: nat := 44

  type Row = seq<real>
  type Matrix = seq<Row>
  /** A four-axis array (batch, coefficient, frame, channel). */
  type Tensor = seq<seq<seq<seq<real>>>>

  function Zeros(n: nat): (z: Row)
    ensures |z| == n
    ensures forall j :: 0 <= j < n ==> z[j] == 0.0
  {
    seq(n, _ => 0.0)
  }

  /** Every row has `cols` entries: the shape of a numpy matrix with `cols` columns. */
  predicate HasWidth(m: Matrix, cols: nat)
  {
    forall i :: 0 <= i < |m| ==> |m[i]| == cols
  }

  /** Pad one row on the right with zeros, or cut it, to MaxPadLen entries. */
  function FitRow(row: Row): (r: Row)
    ensures |r| == MaxPadLen
    ensures forall j :: 0 <= j < MaxPadLen ==> r[j] == if j < |row| then row[j] else 0.0
  {
    if |row| < MaxPadLen then row + Zeros(MaxPadLen - |row|) else row[..MaxPadLen]
  }

  /**
    The pad/truncate step of every extractor: the row count is kept, every row
    gets exactly MaxPadLen columns, kept entries are the input's and every
    added entry is zero.
   */
  function FitFrames(m: Matrix): (r: Matrix)
    ensures |r| == |m|
    ensures HasWidth(r, MaxPadLen)
    ensures forall i, j :: 0 <= i < |m| && 0 <= j < MaxPadLen ==>
      r[i][j] == if j < |m[i]| then m[i][j] else 0.0
  {
    seq(|m|, i requires 0 <= i < |m| => FitRow(m[i]))
  }

  /** Narrow input: the original columns come first, unchanged, then only zero columns. */
  lemma PadCase(m: Matrix, cols: nat)
    requires HasWidth(m, cols) && cols < MaxPadLen
    ensures forall i :: 0 <= i < |m| ==> FitFrames(m)[i][..cols] == m[i]
    ensures forall i :: 0 <= i < |m| ==> FitFrames(m)[i][cols..] == Zeros(MaxPadLen - cols)
  {
    forall i | 0 <= i < |m|
      ensures FitFrames(m)[i][..cols] == m[i]
      ensures FitFrames(m)[i][cols..] == Zeros(MaxPadLen - cols)
    {
      assert FitFrames(m)[i] == m[i] + Zeros(MaxPadLen - cols);
    }
  }

  /** Wide (or exactly fitting) input: the result is its leftmost MaxPadLen columns. */
  lemma TruncateCase(m: Matrix, cols: nat)
    requires HasWidth(m, cols) && cols >= MaxPadLen
    ensures forall i :: 0 <= i < |m| ==> FitFrames(m)[i] == m[i][..MaxPadLen]
  {
  }

  /** A matrix that already has MaxPadLen columns is returned unchanged. */
  lemma FitFramesFixesFitted(m: Matrix)
    requires HasWidth(m, MaxPadLen)
    ensures FitFrames(m) == m
  {
    forall i | 0 <= i < |m| ensures FitFrames(m)[i] == m[i] {
      assert m[i][..MaxPadLen] == m[i];
    }
  }

  /** Pad/truncate is idempotent. */
  lemma FitFramesIdempotent(m: Matrix)
    ensures FitFrames(FitFrames(m)) == FitFrames(m)
  {
    FitFramesFixesFitted(FitFrames(m));
  }

  /**
    Feature extraction: `analyse` stands for the opaque coefficient
    computation (followed by the per-row normalisation in the realtime, batch,
    training and desktop scripts, not in the single-file test); the result
    has the analysed row count and exactly MaxPadLen columns, keeps the analysed
    values it does not cut off, and is zero in every padded column.
   */
  function ExtractFeatures(analyse: Waveform -> Matrix, audio: Waveform): (m: Matrix)
    ensures |m| == |analyse(audio)|
    ensures HasWidth(m, MaxPadLen)
    ensures forall i, j :: 0 <= i < |m| && 0 <= j < |analyse(audio)[i]| && j < MaxPadLen ==>
      m[i][j] == analyse(audio)[i][j]
    ensures forall i, j :: 0 <= i < |m| && |analyse(audio)[i]| <= j < MaxPadLen ==>
      m[i][j] == 0.0
  {
    FitFrames(analyse(audio))
  }

  /** Tensor shape (b, r, c, d), all four axes rectangular. */
  predicate HasShape(t: Tensor, b: nat, r: nat, c: nat, d: nat)
  {
    && |t| == b
    && (forall x :: 0 <= x < b ==> |t[x]| == r)
    && (forall x, y :: 0 <= x < b && 0 <= y < r ==> |t[x][y]| == c)
    && (forall x, y, z :: 0 <= x < b && 0 <= y < r && 0 <= z < c ==> |t[x][y][z]| == d)
  }

  /** `m[np.newaxis, ..., np.newaxis]`: wrap in a batch of one and give every entry a channel axis. */
  function AddAxes(m: Matrix): (t: Tensor)
    ensures |t| == 1 && |t[0]| == |m|
    ensures forall i :: 0 <= i < |m| ==> |t[0][i]| == |m[i]|
    ensures forall i, j :: 0 <= i < |m| && 0 <= j < |m[i]| ==> t[0][i][j] == [m[i][j]]
  {
    [seq(|m|, i requires 0 <= i < |m| => seq(|m[i]|, j requires 0 <= j < |m[i]| => [m[i][j]]))]
  }

  /** A tensor with one batch entry and one channel per cell. */
  predicate Squeezable(t: Tensor)
  {
    && |t| == 1
    && forall i, j :: 0 <= i < |t[0]| && 0 <= j < |t[0][i]| ==> |t[0][i][j]| == 1
  }

  /** Drop the batch and channel axes again. */
  function DropAxes(t: Tensor): (m: Matrix)
    requires Squeezable(t)
    ensures |m| == |t[0]|
    ensures forall i :: 0 <= i < |m| ==> |m[i]| == |t[0][i]|
  {
    seq(|t[0]|, i requires 0 <= i < |t[0]| =>
      seq(|t[0][i]|, j requires 0 <= j < |t[0][i]| => t[0][i][j][0]))
  }

  /** Adding the axes loses nothing: every value is kept, in order. */
  lemma DropAddAxes(m: Matrix)
    ensures Squeezable(AddAxes(m))
    ensures DropAxes(AddAxes(m)) == m
  {
    var t := AddAxes(m);
    forall i | 0 <= i < |m| ensures DropAxes(t)[i] == m[i] {
      assert forall j :: 0 <= j < |m[i]| ==> DropAxes(t)[i][j] == m[i][j];
    }
  }

  /** A fitted matrix of `rows` rows becomes a tensor of shape (1, rows, MaxPadLen, 1). */
  lemma AddAxesShape(m: Matrix)
    requires HasWidth(m, MaxPadLen)
    ensures HasShape(AddAxes(m), 1, |m|, MaxPadLen, 1)
  {
  }
}
