/**
  Training-set assembly: every `.wav` file in a command's folder yields one
  fitted feature matrix, or three with augmentation, and each is labelled
  with that command's index. The audio loading, the random pitch shift and
  time stretch, and the coefficient analysis are opaque: a file is
  represented by the three analysed matrices they would produce.
 */
module Training {
  import opened Audio
  import opened Features
  import opened Commands

  /** Analysed coefficients of a file's audio, of its pitch-shifted and of its time-stretched copy. */
  datatype Analysed = Analysed(plain: Matrix, pitched: Matrix, stretched: Matrix)

  /**
    `process_file`: the unaugmented features first, then with augmentation
    the pitch-shifted and the time-stretched ones; every matrix is fitted to
    MaxPadLen columns.
   */
  function ProcessFile(a: Analysed, augment: bool): (feats: seq<Matrix>)
    ensures |feats| == if augment then 3 else 1
    ensures feats[0] == FitFrames(a.plain)
    ensures augment ==> feats[1] == FitFrames(a.pitched) && feats[2] == FitFrames(a.stretched)
    ensures forall k :: 0 <= k < |feats| ==> HasWidth(feats[k], MaxPadLen)
  {
    if augment then [FitFrames(a.plain), FitFrames(a.pitched), FitFrames(a.stretched)]
    else [FitFrames(a.plain)]
  }

  /** `filename.endswith('.wav')`. */
  predicate IsWav(name: string)
  {
    |name| >= 4 && name[|name| - 4..] == ".wav"
  }

  /** One training example: a feature matrix and its command index. */
  datatype Example = Example(features: Matrix, index: nat)

  /** The examples one file contributes, all labelled with its folder's index. */
  function FileExamples(index: nat, name: string, analyse: (nat, string) -> Analysed,
                        augment: bool): seq<Example>
  {
    if IsWav(name) then Tagged(ProcessFile(analyse(index, name), augment), index) else []
  }

  /** The features, each paired with the same command index. */
  function Tagged(feats: seq<Matrix>, index: nat): (es: seq<Example>)
    ensures |es| == |feats|
    ensures forall k :: 0 <= k < |es| ==> es[k] == Example(feats[k], index)
  {
    seq(|feats|, k requires 0 <= k < |feats| => Example(feats[k], index))
  }

  /** The examples of the first n files of one folder listing. */
  function FolderExamples(index: nat, names: seq<string>, n: nat,
                          analyse: (nat, string) -> Analysed, augment: bool): seq<Example>
    requires n <= |names|
  {
    if n == 0 then []
    else FolderExamples(index, names, n - 1, analyse, augment)
         + FileExamples(index, names[n - 1], analyse, augment)
  }

  /** The examples of the first c command folders. */
  function AllExamples(listings: seq<seq<string>>, c: nat,
                       analyse: (nat, string) -> Analysed, augment: bool): seq<Example>
    requires c <= |listings|
  {
    if c == 0 then []
    else AllExamples(listings, c - 1, analyse, augment)
         + FolderExamples(c - 1, listings[c - 1], |listings[c - 1]|, analyse, augment)
  }

  /** `data` and `labels` are the two columns of `examples`. */
  predicate Columns(data: seq<Matrix>, labels: seq<nat>, examples: seq<Example>)
  {
    && |data| == |examples| && |labels| == |examples|
    && forall k :: 0 <= k < |examples| ==>
         data[k] == examples[k].features && labels[k] == examples[k].index
  }

  /** Number of `.wav` names among the first n of a listing. */
  function WavCount(names: seq<string>, n: nat): nat
    requires n <= |names|
  {
    if n == 0 then 0 else WavCount(names, n - 1) + (if IsWav(names[n - 1]) then 1 else 0)
  }

  /** Number of `.wav` files in the first c folders. */
  function TotalWavs(listings: seq<seq<string>>, c: nat): nat
    requires c <= |listings|
  {
    if c == 0 then 0 else TotalWavs(listings, c - 1) + WavCount(listings[c - 1], |listings[c - 1]|)
  }

  /**
    `load_data` up to the final array conversion and split: walk the command
    folders in order (listings[c] is the listing of command c's folder), and
    for every `.wav` file append each of its features to `data` and the
    command's index to `labels`, in lockstep.
   */
  method LoadData(listings: seq<seq<string>>, analyse: (nat, string) -> Analysed, augment: bool)
    returns (data: seq<Matrix>, labels: seq<nat>)
    requires |listings| == NumCommands
    ensures |data| == |labels|
    ensures Columns(data, labels, AllExamples(listings, |listings|, analyse, augment))
    ensures forall k :: 0 <= k < |labels| ==> labels[k] < NumCommands
    ensures |data| == (if augment then 3 else 1) * TotalWavs(listings, |listings|)
  {
    data, labels := [], [];
    var c := 0;
    while c < |listings|
      invariant c <= |listings|
      invariant Columns(data, labels, AllExamples(listings, c, analyse, augment))
    {
      data, labels := LoadFolder(data, labels, AllExamples(listings, c, analyse, augment),
                                 c, listings[c], analyse, augment);
      c := c + 1;
    }
    ExamplesLabelled(listings, |listings|, analyse, augment);
    ExampleCount(listings, |listings|, analyse, augment);
  }

  /** The loop over one command folder's listing. */
  method LoadFolder(data: seq<Matrix>, labels: seq<nat>, ghost examples: seq<Example>,
                    index: nat, names: seq<string>, analyse: (nat, string) -> Analysed, augment: bool)
    returns (data': seq<Matrix>, labels': seq<nat>)
    requires Columns(data, labels, examples)
    ensures Columns(data', labels', examples + FolderExamples(index, names, |names|, analyse, augment))
  {
    data', labels' := data, labels;
    var j := 0;
    while j < |names|
      invariant j <= |names|
      invariant Columns(data', labels', examples + FolderExamples(index, names, j, analyse, augment))
    {
      var feats := if IsWav(names[j]) then ProcessFile(analyse(index, names[j]), augment) else [];
      ghost var before := FolderExamples(index, names, j, analyse, augment);
      data', labels' := AppendExamples(data', labels', examples + before, feats, index);
      assert Tagged(feats, index) == FileExamples(index, names[j], analyse, augment);
      assert examples + before + Tagged(feats, index) == examples + (before + Tagged(feats, index));
      j := j + 1;
    }
  }

  /** The `for feat in feats` loop: append every feature and its index, in lockstep. */
  method AppendExamples(data: seq<Matrix>, labels: seq<nat>, ghost examples: seq<Example>,
                        feats: seq<Matrix>, index: nat)
    returns (data': seq<Matrix>, labels': seq<nat>)
    requires Columns(data, labels, examples)
    ensures Columns(data', labels', examples + Tagged(feats, index))
  {
    data', labels' := data, labels;
    var k := 0;
    while k < |feats|
      invariant k <= |feats|
      invariant Columns(data', labels', examples + Tagged(feats[..k], index))
    {
      assert Tagged(feats[..k + 1], index) == Tagged(feats[..k], index) + [Example(feats[k], index)];
      data' := data' + [feats[k]];
      labels' := labels' + [index];
      k := k + 1;
    }
    assert feats[..k] == feats;
  }

  /** Every example of the first c folders carries an index below c. */
  lemma {:induction false} ExamplesLabelled(listings: seq<seq<string>>, c: nat,
                                            analyse: (nat, string) -> Analysed, augment: bool)
    requires c <= |listings|
    ensures forall k :: 0 <= k < |AllExamples(listings, c, analyse, augment)| ==>
      AllExamples(listings, c, analyse, augment)[k].index < c
  {
    if c > 0 {
      var before := AllExamples(listings, c - 1, analyse, augment);
      var folder := FolderExamples(c - 1, listings[c - 1], |listings[c - 1]|, analyse, augment);
      ExamplesLabelled(listings, c - 1, analyse, augment);
      FolderLabelled(c - 1, listings[c - 1], |listings[c - 1]|, analyse, augment);
      var all: seq<Example> := before + folder;
      assert AllExamples(listings, c, analyse, augment) == all;
      forall k | 0 <= k < |all| ensures all[k].index < c {
        if k < |before| {
          assert all[k] == before[k];
        } else {
          assert all[k] == folder[k - |before|];
        }
      }
    }
  }

  /** Every example a folder contributes carries that folder's index. */
  lemma {:induction false} FolderLabelled(index: nat, names: seq<string>, n: nat,
                                          analyse: (nat, string) -> Analysed, augment: bool)
    requires n <= |names|
    ensures forall k :: 0 <= k < |FolderExamples(index, names, n, analyse, augment)| ==>
      FolderExamples(index, names, n, analyse, augment)[k].index == index
  {
    if n > 0 {
      var before := FolderExamples(index, names, n - 1, analyse, augment);
      var file := FileExamples(index, names[n - 1], analyse, augment);
      FolderLabelled(index, names, n - 1, analyse, augment);
      var all: seq<Example> := before + file;
      assert FolderExamples(index, names, n, analyse, augment) == all;
      forall k | 0 <= k < |all| ensures all[k].index == index {
        if k < |before| {
          assert all[k] == before[k];
        } else {
          assert all[k] == file[k - |before|];
        }
      }
    }
  }

  /** Each `.wav` file contributes one example, or three with augmentation. */
  lemma {:induction false} FolderCount(index: nat, names: seq<string>, n: nat,
                                       analyse: (nat, string) -> Analysed, augment: bool)
    requires n <= |names|
    ensures |FolderExamples(index, names, n, analyse, augment)|
      == (if augment then 3 else 1) * WavCount(names, n)
  {
    if n > 0 {
      FolderCount(index, names, n - 1, analyse, augment);
    }
  }

  /** The data set has one example per `.wav` file, or three per file with augmentation. */
  lemma {:induction false} ExampleCount(listings: seq<seq<string>>, c: nat,
                                        analyse: (nat, string) -> Analysed, augment: bool)
    requires c <= |listings|
    ensures |AllExamples(listings, c, analyse, augment)| == (if augment then 3 else 1) * TotalWavs(listings, c)
  {
    if c > 0 {
      ExampleCount(listings, c - 1, analyse, augment);
      FolderCount(c - 1, listings[c - 1], |listings[c - 1]|, analyse, augment);
    }
  }
}
