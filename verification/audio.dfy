/** Small failure-compatible wrapper used where the scripts can fail or yield nothing. */
module Wrappers {

  datatype Option<+T> = None | Some(value: T)
}

/**
  Raw audio as the capture callback and the recorders deliver it: mono
  samples in chunks. The channel axis of size 1 that the audio library adds
  is dropped, so a chunk is simply its samples in time order.
 */
module Audio {

  /** Sampling rate every script resamples or records at. */
  const SampleRate: nat := 16000

  type Chunk = seq<real>
  type Waveform = seq<real>

  /** Total number of samples held by a list of chunks. */
  function TotalLength(chunks: seq<Chunk>): nat
  {
    if |chunks| == 0 then 0 else TotalLength(chunks[..|chunks| - 1]) + |chunks[|chunks| - 1]|
  }

  /** Concatenation of the captured chunks followed by flattening, in capture order. */
  function Concat(chunks: seq<Chunk>): (w: Waveform)
    ensures |w| == TotalLength(chunks)
  {
    if |chunks| == 0 then [] else Concat(chunks[..|chunks| - 1]) + chunks[|chunks| - 1]
  }

  /** Concatenation distributes over splitting the chunk list anywhere. */
  lemma {:induction false} ConcatAppend(a: seq<Chunk>, b: seq<Chunk>)
    ensures Concat(a + b) == Concat(a) + Concat(b)
    ensures TotalLength(a + b) == TotalLength(a) + TotalLength(b)
    decreases |b|
  {
    if |b| == 0 {
      assert a + b == a;
    } else {
      var b' := b[..|b| - 1];
      var last := b[|b| - 1];
      assert (a + b)[..|a + b| - 1] == a + b';
      assert (a + b)[|a + b| - 1] == last;
      ConcatAppend(a, b');
      calc {
        Concat(a + b);
        Concat(a + b') + last;
        (Concat(a) + Concat(b')) + last;
        Concat(a) + (Concat(b') + last);
        Concat(a) + Concat(b);
      }
    }
  }

  /**
    The flattened waveform is the chunks laid end to end: sample j of chunk k
    sits at the offset given by the lengths of the chunks before it.
   */
  lemma {:induction false} ConcatIndex(chunks: seq<Chunk>, k: nat, j: nat)
    requires k < |chunks| && j < |chunks[k]|
    ensures TotalLength(chunks[..k]) + j < |Concat(chunks)|
    ensures Concat(chunks)[TotalLength(chunks[..k]) + j] == chunks[k][j]
  {
    assert chunks == chunks[..k] + [chunks[k]] + chunks[k + 1..];
    ConcatAppend(chunks[..k] + [chunks[k]], chunks[k + 1..]);
    ConcatAppend(chunks[..k], [chunks[k]]);
    assert [chunks[k]][..0] == [];
  }

  /** A recording of one-sample rows flattens to the column of those samples. */
  lemma {:induction false} ConcatSingletons(rows: seq<Chunk>)
    requires forall i :: 0 <= i < |rows| ==> |rows[i]| == 1
    ensures |Concat(rows)| == |rows|
    ensures forall i :: 0 <= i < |rows| ==> Concat(rows)[i] == rows[i][0]
    decreases |rows|
  {
    if |rows| > 0 {
      var front := rows[..|rows| - 1];
      ConcatSingletons(front);
      assert Concat(rows) == Concat(front) + rows[|rows| - 1];
    }
  }
}
