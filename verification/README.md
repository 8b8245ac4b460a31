# Smart_Dog voice commands, modelled in Dafny

Smart_Dog turns spoken commands into one-character codes for a robot dog on
a serial link. Five Python scripts share one recognition chain. Audio is
split at silences. Intervals shorter than 200 samples are skipped. Each
remaining interval is turned into a 40 x 44 coefficient matrix and given to
a trained classifier, and the arg-max of its five probabilities names one of
`dur`, `duz_devam_et`, `geri_don`, `sag_don`, `sola_don`.

This project models the integer- and sequence-shaped logic between the
library calls. That logic is:

- fixing feature matrices to 44 frame columns and adding the batch and
  channel axes (`Features`);
- reading the probability vector (`Commands`);
- filtering intervals and keeping them in order (`Segments`, `Recognition`);
- the realtime push-to-talk pipeline (`Realtime`) and its capture state
  machine (`Capture`);
- the batch file mode (`Batch`);
- the desktop controller's code table and serial dispatch decision
  (`Dispatch`);
- training-set assembly (`Training`);
- the single-file test (`Sing`).

The MFCC computation, its per-row normalisation, the silence splitter and
the trained model are opaque. They appear as function parameters
(`analyse: Waveform -> Matrix`, `model: Tensor -> Probabilities`) or as
inputs (the interval list). `Probabilities` is a sequence of exactly five
reals, the output width of the classifier. The intervals must satisfy
`0 <= start <= end <= |audio|`, as the splitter guarantees.

The capture controller keeps the source's single `recording` flag as
"phase is not Idle". Its three phases are:

- Idle;
- Recording: the key is held;
- Settling: the 0.5 s sleep inside the release handler, during which
  `recording` is still true.

Events are key press, key release, one audio-callback delivery, and the end
of the settle sleep, listed in the order their handlers run. Key handlers run
one at a time, so a key event that arrives during the sleep comes after the
end of the sleep.

## Model

| member | source | states |
|---|---|---|
| Audio.Concat | realTimeTest.py:66 | the waveform handed to segmentation has as many samples as the captured chunks together |
| Audio.ConcatIndex | realTimeTest.py:66 | concatenation lays the chunks end to end: sample j of chunk k sits after all samples of the earlier chunks |
| Audio.ConcatAppend | realTimeTest.py:46 | appending chunks to the buffer appends their samples to the concatenated waveform |
| Audio.ConcatSingletons | python_kod.py:52-55 | flattening a one-channel recording gives its samples in order, one per row |
| Features.FitRow | realTimeTest.py:54-58 | one coefficient row becomes exactly 44 entries: its own where they exist, zero beyond |
| Features.FitFrames | realTimeTest.py:54-58 | the result has the input's row count and exactly 44 columns; entry j is the input's where it exists and 0 beyond it |
| Features.PadCase | test_model_sing.py:17-19 | a matrix narrower than 44 columns keeps its columns unchanged, followed only by zero columns |
| Features.TruncateCase | test_model_sing.py:20-21 | a matrix of 44 or more columns becomes exactly its first 44 columns |
| Features.FitFramesFixesFitted | test_model_professional.py:29-33 | a 44-column matrix is returned unchanged |
| Features.FitFramesIdempotent | realTimeTest.py:57-58 | padding or truncating twice is the same as doing it once |
| Features.ExtractFeatures | train_model.py:43-52 | extracted features have the analysed row count, 44 columns, keep every analysed value not cut off, and are zero in every padded column |
| Features.DropAddAxes | test_model_sing.py:32 | adding the batch and channel axes keeps every value in order: dropping them again gives the matrix back |
| Features.AddAxes | realTimeTest.py:79 | the tensor holds one batch entry, with the matrix's rows and columns, and each value alone in its channel |
| Features.AddAxesShape | realTimeTest.py:79 | a fitted matrix with r rows becomes a tensor of shape (1, r, 44, 1) |
| Commands.ArgMaxPrefix | test_model_sing.py:37 | the index returned holds a maximal entry, and no earlier entry is equally large |
| Commands.ArgMax | realTimeTest.py:82 | the arg-max is in range, no entry exceeds it, and it is the first maximal entry |
| Commands.Classify | test_model_professional.py:57-59 | the command is the label at the arg-max, and the confidence is that entry, at least every other probability |
| Commands.LabelsHaveNoSpace | realTimeTest.py:24 | no command label contains a space |
| Commands.LabelsDistinct | realTimeTest.py:24 | the five labels are pairwise distinct |
| Segments.Survivors | realTimeTest.py:74-77 | every interval classified has at least 200 samples, and lies inside the waveform when the input intervals do |
| Segments.SurvivorsMembers | realTimeTest.py:74-77 | every interval classified is one of the splitter's intervals, and every interval with at least 200 samples is classified |
| Segments.SurvivorIndices | test_model_professional.py:49-52 | the kept 0-based positions are strictly increasing and name only long intervals |
| Segments.SurvivorIndexOf | test_model_professional.py:49-52 | no long interval is skipped: its position is among the kept positions |
| Segments.SurvivorsAtIndices | test_model_professional.py:49-53 | the kept intervals, in order, are the intervals at the kept positions |
| Segments.SurvivorCount | test_model_professional.py:49-52 | the realtime filter and the batch loop keep the same number of intervals |
| Segments.SurvivorAt | test_model_professional.py:49-53 | the k-th kept interval is the interval at the k-th kept position |
| Segments.SurvivorsAscending | realTimeTest.py:70-77 | filtering keeps intervals in ascending start order |
| Segments.NoLongNoSurvivor | realTimeTest.py:75-76 | when no interval reaches 200 samples, nothing is classified |
| Recognition.Slice | realTimeTest.py:77 | the segment has end - start samples, and the waveform is the samples before start, the segment, then the samples from end on |
| Recognition.SliceSample | realTimeTest.py:77 | sample k of the segment is sample start + k of the waveform |
| Recognition.ModelInputShape | realTimeTest.py:77-81 | each tensor given to the model has shape (1, rows, 44, 1) and carries the fitted features unchanged |
| Realtime.PredictLabels | realTimeTest.py:73-83 | every kept interval lies inside the waveform; there is one label per kept interval, in interval order; each is that interval's arg-max label and so one of the five commands |
| Realtime.SplitJoin | realTimeTest.py:86 | labels joined by single spaces split back into the same labels |
| Realtime.ProcessAndPredict | realTimeTest.py:61-91 | an empty chunk list fails at the concatenation and nothing else; with chunks, the report is "no valid segment" exactly when no interval survives, otherwise its text splits into the predicted labels in order |
| Realtime.ShortCaptureReportsNothing | realTimeTest.py:66-91 | a capture that delivered chunks but holds fewer than 200 samples reports no valid segment |
| Batch.Seconds | test_model_professional.py:60-61 | the time in seconds multiplied by the sampling rate (16000) is the sample position |
| Batch.SecondsMonotonic | test_model_professional.py:60-61 | a start at or before the end gives a start time at or before the end time |
| Batch.ResultFor | test_model_professional.py:57-69 | the line for interval i has segment i + 1, the label the realtime classifier gives that interval, a confidence that is the probability of the chosen label and at least every other probability, and the interval's bounds in seconds |
| Batch.PredictFrom | test_model_professional.py:49-69 | from a given position on, there is one line per kept position |
| Batch.PredictFromAt | test_model_professional.py:49-69 | the k-th line from a given position on is the line of the k-th kept interval there |
| Batch.Numbered | test_model_professional.py:49-64 | each line's segment number is its interval's 0-based position plus one |
| Batch.NumberedBySurvivors | test_model_professional.py:49-64 | numbering by kept position plus one gives strictly increasing numbers, each naming a long interval, and a number for every long interval |
| Batch.NumberOf | test_model_professional.py:49-64 | interval i has at least 200 samples exactly when some line carries segment number i + 1 |
| Batch.PredictCommands | test_model_professional.py:36-70 | segment numbers strictly increase, name only long intervals and name every long interval |
| Batch.ResultAt | test_model_professional.py:63-69 | each line describes the interval its segment number names |
| Batch.CommandsMatchSurvivors | test_model_professional.py:44-70 | the batch commands are the realtime labels: same count, same order |
| Batch.StartTimesAscending | test_model_professional.py:60-69 | for intervals in ascending start order, the reported start times never decrease |
| Batch.Summarize | test_model_professional.py:87-94 | the empty-result message appears exactly when there are no results; otherwise every result is listed |
| Capture.Step | realTimeTest.py:93-128 | press starts an empty-buffer session only when not recording; release starts the settle delay only while recording; a delivery appends one chunk; only the end of the settle delay hands the buffer over |
| Capture.SessionsProcessedOnce | realTimeTest.py:104-113 | over any event sequence, processed buffers plus the final flag equal started sessions plus the initial flag |
| Capture.DeliveriesAppend | realTimeTest.py:39-46 | callbacks while recording append their chunks in order, leave earlier chunks alone and process nothing |
| Capture.Session | realTimeTest.py:93-128 | press, hold, release, settle ends idle, with one session and exactly one processed buffer holding every chunk in order |
| Capture.HoldAndSettle | realTimeTest.py:93-113 | from a fresh recording, held chunks, release, late chunks and the end of the sleep leave the controller idle with one buffer of all chunks processed |
| Capture.SettleRun | realTimeTest.py:104-113 | chunks arriving during the settle sleep still join the buffer, which is processed once when the sleep ends |
| Capture.RunAppend | realTimeTest.py:115-128 | handling two event runs one after the other is handling their concatenation |
| Capture.DeferredPressStartsSession | realTimeTest.py:104-121 | a press arriving during the settle sleep is handled after the buffer is processed, finds recording cleared, and starts a new empty session |
| Dispatch.Decide | python_kod.py:81-96 | a mapped label on an open port sends its code; a mapped label otherwise gives "port not open"; an unmapped label gives "unmatched" |
| Dispatch.Written | python_kod.py:83-86 | at most one character is written, and exactly the code when it is sent |
| Dispatch.EveryLabelHasCode | python_kod.py:15-22 | every label has a code, and the table has no other key |
| Dispatch.CodesDistinct | python_kod.py:16-22 | distinct commands have distinct codes |
| Dispatch.CommandOfCode | python_kod.py:16-22 | a character decodes to a command exactly when the table maps that command to it |
| Dispatch.SentCodeRoundTrip | python_kod.py:81-85 | the character sent decodes back to the recognised command |
| Dispatch.RecordClip | python_kod.py:48-55 | a recording has 2 x 16000 = 32000 samples, in recorded order |
| Dispatch.FeatureTensor | python_kod.py:57-68 | the reshape succeeds exactly when the analysis has 40 rows, giving shape (1, 40, 44, 1) with the fitted features unchanged |
| Dispatch.RecognizeAndSend | python_kod.py:70-96 | the outcome is never "unmatched"; a code is sent exactly when the port is open, and it decodes to the arg-max command |
| Training.ProcessFile | train_model.py:54-65 | a file yields 1 fitted matrix, or 3 with augmentation; the first is always the unaugmented one |
| Training.AppendExamples | train_model.py:77-79 | every feature is appended to data with its index appended to labels, in lockstep |
| Training.LoadFolder | train_model.py:73-79 | one folder's `.wav` files contribute their examples in listing order |
| Training.LoadData | train_model.py:67-80 | data and labels have equal length and are the examples of all folders in order; every label is below 5 |
| Training.ExamplesLabelled | train_model.py:70-79 | examples from the first c folders carry labels below c |
| Training.FolderLabelled | train_model.py:73-79 | every example from a folder carries that folder's command index |
| Training.FolderCount | train_model.py:73-79 | a folder contributes 1 example per `.wav` file, or 3 with augmentation |
| Training.ExampleCount | train_model.py:57-79 | the data set has 1 example per `.wav` file, or 3 with augmentation |
| Sing.PreprocessAudio | test_model_sing.py:11-21 | 44 columns and the analysed row count; kept values equal the raw coefficients (no normalisation), padding is zero |
| Sing.PredictedCommand | test_model_sing.py:31-38 | the printed command is a label whose probability no other exceeds, the first such |

## Left out

- The MFCC computation, the per-row mean/std normalisation with its 1e-10
  guard, and `librosa.effects.split` are opaque. The normalisation is
  floating-point statistics. Only their shapes matter to the logic modelled.
- The trained network, model loading, `residual_block`, `build_model`, the
  training `main` and the final `train_test_split`/one-hot conversion in
  `load_data` are numeric library work.
- Pitch shifting and time stretching are random and floating point. A file
  is given by its three analysed matrices; only the number and order of the
  features it yields are modelled.
- The sounddevice stream, `sd.rec`/`sd.wait`, keyboard hooks, the 0.5 s
  sleep as a duration, the GUI thread, tkinter widgets, logging, printing,
  serial port enumeration and opening, the real `ser.write`, file loading and
  `sys.argv` handling are all I/O. The sleep is the Settling phase.
- Capture.Step: key handlers are taken to run one at a time, in arrival
  order, as the keyboard library calls its hooks from a single thread. A
  press or release that arrives during the settle sleep is therefore handled
  after `stop_recording` returns, and appears after SettleElapsed in the
  event order (the predicate HandlerOrder). Step answers a Press or Release
  in Settling with no change only so that it is total: such an event does
  not occur in handler order. Concurrent handlers are not modelled.
- Features.FitFrames pads or truncates each row by its own length. For the
  rectangular arrays numpy produces, this is the source's branch on
  `shape[1]`. PadCase and TruncateCase state that branch for a matrix of
  uniform width.
- Batch.Seconds: the source divides by the `sr` that `librosa.load` returns.
  Loading with `sr=SR` resamples to 16000, so the constant is used. The
  division is exact real division, not floating point.
- Dispatch.RecognizeAndSend: a failing reshape raises an exception in the
  worker thread. Here it is the result None.
- Recording failures, the serial write failing, and the device-unavailable
  path are not modelled, because the scripts have no handling for them
  beyond the library's own exceptions.
