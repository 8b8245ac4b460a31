/**
  The single-command desktop controller: record two seconds, extract the
  fitted feature tensor, classify, and send the command's one-character code
  to the serial port when it is open.
 */
module Dispatch {
  import opened Wrappers
  import opened Audio
  import opened Features
  import opened Commands

  /** Length of one recording in seconds. */
  const RecordSeconds: nat := 2

  /** Samples requested from the recorder: seconds times the rate. */
  const RequestedSamples: nat := RecordSeconds * SampleRate

  /** The output code of every command. */
  const CodeTable: map<string, char> :=
    map["dur" := 'S', "duz_devam_et" := 'F', "geri_don" := 'B', "sag_don" := 'R', "sola_don" := 'L']

  /** The serial handle: none opened yet, or an opened object whose port may since have closed. */
  datatype Port = NoPort | Serial(isOpen: bool)

  /** The three distinguishable ends of one dispatch. */
  datatype Outcome = Sent(code: char) | PortNotOpen | Unmatched

  /**
    The code-table lookup followed by the port check: a mapped command and an
    open port send that command's code; a mapped command otherwise reports the
    closed port; a command with no code reports an unmatched command.
   */
  function Decide(command: string, port: Port): (o: Outcome)
    ensures o.Sent? <==> command in CodeTable && port == Serial(true)
    ensures o.Sent? ==> o.code == CodeTable[command]
    ensures o == PortNotOpen <==> command in CodeTable && port != Serial(true)
    ensures o == Unmatched <==> command !in CodeTable
  {
    if command in CodeTable then
      if port.Serial? && port.isOpen then Sent(CodeTable[command]) else PortNotOpen
    else Unmatched
  }

  /** The characters written to the port by an outcome. */
  function Written(o: Outcome): (w: string)
    ensures |w| <= 1
    ensures |w| == 1 <==> o.Sent?
    ensures o.Sent? ==> w == [o.code]
  {
    if o.Sent? then [o.code] else []
  }

  /** Every command has a code, and the table knows no other command. */
  lemma EveryLabelHasCode()
    ensures forall l :: l in Labels ==> l in CodeTable
    ensures forall l :: l in CodeTable ==> l in Labels
  {
    assert Labels == ["dur", "duz_devam_et", "geri_don", "sag_don", "sola_don"];
  }

  /** Distinct commands have distinct codes, so a code names one command. */
  lemma CodesDistinct()
    ensures forall a, b :: a in CodeTable && b in CodeTable && a != b ==> CodeTable[a] != CodeTable[b]
  {
  }

  /** The command a received code stands for, if any: the receiving side's reading. */
  function CommandOfCode(c: char): (l: Option<string>)
    ensures l.Some? ==> l.value in CodeTable && CodeTable[l.value] == c
    ensures l.None? ==> forall x :: x in CodeTable ==> CodeTable[x] != c
  {
    if c == 'S' then Some("dur")
    else if c == 'F' then Some("duz_devam_et")
    else if c == 'B' then Some("geri_don")
    else if c == 'R' then Some("sag_don")
    else if c == 'L' then Some("sola_don")
    else None
  }

  /** What is sent is understood as exactly the recognised command. */
  lemma SentCodeRoundTrip(command: string)
    requires command in CodeTable
    ensures Decide(command, Serial(true)) == Sent(CodeTable[command])
    ensures CommandOfCode(CodeTable[command]) == Some(command)
  {
    CodesDistinct();
  }

  /**
    `sesi_kaydet`: the recorder returns RequestedSamples rows of one channel;
    flattening gives a waveform of exactly that many samples, in order.
   */
  function RecordClip(rows: seq<Chunk>): (w: Waveform)
    requires |rows| == RequestedSamples
    requires forall i :: 0 <= i < |rows| ==> |rows[i]| == 1
    ensures |w| == 32000
    ensures forall i :: 0 <= i < |rows| ==> w[i] == rows[i][0]
  {
    ConcatSingletons(rows);
    Concat(rows)
  }

  /**
    `mfcc_ozellikleri`: the fitted matrix reshaped to (1, 40, 44, 1). The
    reshape fails unless the analysis produced exactly NumCoefficients rows.
   */
  function FeatureTensor(analyse: Waveform -> Matrix, w: Waveform): (t: Option<Tensor>)
    ensures t.Some? <==> |analyse(w)| == NumCoefficients
    ensures t.Some? ==> HasShape(t.value, 1, NumCoefficients, MaxPadLen, 1)
    ensures t.Some? ==> Squeezable(t.value) && DropAxes(t.value) == ExtractFeatures(analyse, w)
  {
    var m := ExtractFeatures(analyse, w);
    if |m| == NumCoefficients then
      AddAxesShape(m);
      DropAddAxes(m);
      Some(AddAxes(m))
    else None
  }

  /**
    `ses_tanima_ve_gonder`: recognise the recorded command and dispatch it.
    None stands for the reshape failure. The recognised command always comes
    from the command list, so the unmatched-command report cannot occur here.
   */
  function RecognizeAndSend(analyse: Waveform -> Matrix, model: Tensor -> Probabilities,
                            rows: seq<Chunk>, port: Port): (o: Option<Outcome>)
    requires |rows| == RequestedSamples
    requires forall i :: 0 <= i < |rows| ==> |rows[i]| == 1
    ensures o.Some? <==> |analyse(RecordClip(rows))| == NumCoefficients
    ensures o.Some? ==> o.value != Unmatched
    ensures o.Some? ==> (o.value.Sent? <==> port == Serial(true))
    ensures o.Some? && o.value.Sent? ==>
      var p := model(FeatureTensor(analyse, RecordClip(rows)).value);
      CommandOfCode(o.value.code) == Some(Labels[ArgMax(p)])
  {
    var t := FeatureTensor(analyse, RecordClip(rows));
    if t.Some? then
      var command := Classify(model(t.value)).command;
      EveryLabelHasCode();
      SentCodeRoundTrip(command);
      Some(Decide(command, port))
    else None
  }
}
