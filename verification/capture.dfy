/**
  The push-to-talk capture controller of the realtime script. The source
  keeps one boolean `recording` and a frame buffer; the release handler
  sleeps for the settle delay with `recording` still set before it stops the
  stream and processes the buffer. Here that sleep is the Settling phase, and
  `recording` is "phase is not Idle".
 */
module Capture {
  import opened Wrappers
  import opened Audio

  datatype Phase = Idle | Recording | Settling

  datatype State = State(phase: Phase, frames: seq<Chunk>)
  {
    /** The source's `recording` flag. */
    predicate IsRecording() { phase != Idle }
  }

  /**
    Press and Release are the key events; Deliver is one audio callback
    carrying one chunk; SettleElapsed is the end of the settle sleep.
   */
  datatype Event = Press | Release | Deliver(chunk: Chunk) | SettleElapsed

  /** The next state and, when a session ends, the chunks handed to processing. */
  datatype Outcome = Outcome(next: State, processed: Option<seq<Chunk>>)

  /** Nothing changes and nothing is processed. */
  predicate Ignored(s: State, o: Outcome)
  {
    o.next == s && o.processed == None
  }

  /**
    One event. A press starts a session with an empty buffer only when not
    recording; a release while recording begins the settle delay; a delivery
    appends its chunk while the stream runs; the end of the settle delay
    stops recording and hands the buffer over exactly once. Every other
    combination leaves the state alone.
   */
  function Step(s: State, e: Event): (o: Outcome)
    ensures e == Press && !s.IsRecording() ==>
      o.next == State(Recording, []) && o.processed == None
    ensures e == Press && s.IsRecording() ==> Ignored(s, o)
    ensures e == Release && s.phase == Recording ==>
      o.next == State(Settling, s.frames) && o.next.IsRecording() && o.processed == None
    ensures e == Release && s.phase != Recording ==> Ignored(s, o)
    ensures e.Deliver? && s.IsRecording() ==>
      o.next.phase == s.phase && o.next.frames == s.frames + [e.chunk] && o.processed == None
    ensures e.Deliver? && !s.IsRecording() ==> Ignored(s, o)
    ensures e == SettleElapsed && s.phase == Settling ==>
      o.next == State(Idle, s.frames) && !o.next.IsRecording() && o.processed == Some(s.frames)
    ensures e == SettleElapsed && s.phase != Settling ==> Ignored(s, o)
    ensures o.processed.Some? <==> e == SettleElapsed && s.phase == Settling
  {
    match e
    case Press =>
      if !s.IsRecording() then Outcome(State(Recording, []), None) else Outcome(s, None)
    case Release =>
      if s.phase == Recording then Outcome(State(Settling, s.frames), None) else Outcome(s, None)
    case Deliver(c) =>
      if s.IsRecording() then Outcome(s.(frames := s.frames + [c]), None) else Outcome(s, None)
    case SettleElapsed =>
      if s.phase == Settling then Outcome(State(Idle, s.frames), Some(s.frames)) else Outcome(s, None)
  }

  /** The result of a run of events: final state, buffers processed, sessions started. */
  datatype Trace = Trace(final: State, processed: seq<seq<Chunk>>, sessions: nat)

  /** Whether an event starts a new session in state s. */
  predicate Starts(s: State, e: Event)
  {
    e == Press && !s.IsRecording()
  }

  /** Feed the events one after another. */
  function Run(s: State, events: seq<Event>): Trace
    decreases |events|
  {
    if |events| == 0 then Trace(s, [], 0)
    else
      var o := Step(s, events[0]);
      var rest := Run(o.next, events[1..]);
      var here := if o.processed.Some? then [o.processed.value] else [];
      Trace(rest.final, here + rest.processed, (if Starts(s, events[0]) then 1 else 0) + rest.sessions)
  }

  function Flag(b: bool): nat { if b then 1 else 0 }

  /**
    Every session started is processed exactly once, unless it is still in
    flight at the end: processed buffers plus the final recording flag equal
    sessions started plus the initial recording flag.
   */
  lemma {:induction false} SessionsProcessedOnce(s: State, events: seq<Event>)
    ensures var t := Run(s, events);
      |t.processed| + Flag(t.final.IsRecording()) == t.sessions + Flag(s.IsRecording())
    decreases |events|
  {
    if |events| > 0 {
      SessionsProcessedOnce(Step(s, events[0]).next, events[1..]);
    }
  }

  /** The events of a list of callback deliveries. */
  function Deliveries(chunks: seq<Chunk>): (es: seq<Event>)
    ensures |es| == |chunks|
    ensures forall k :: 0 <= k < |es| ==> es[k] == Deliver(chunks[k])
  {
    seq(|chunks|, k requires 0 <= k < |chunks| => Deliver(chunks[k]))
  }

  /** Deliveries while recording append their chunks in order and process nothing. */
  lemma {:induction false} DeliveriesAppend(s: State, chunks: seq<Chunk>)
    requires s.IsRecording()
    ensures Run(s, Deliveries(chunks)) == Trace(State(s.phase, s.frames + chunks), [], 0)
    decreases |chunks|
  {
    if |chunks| > 0 {
      var es := Deliveries(chunks);
      var s' := State(s.phase, s.frames + [chunks[0]]);
      assert es[1..] == Deliveries(chunks[1..]);
      DeliveriesAppend(s', chunks[1..]);
      assert s.frames + [chunks[0]] + chunks[1..] == s.frames + chunks;
    }
  }

  /**
    A whole session: press while idle, chunks during the hold, release, more
    chunks during the settle delay, end of the delay. It ends idle and
    processes exactly one buffer, which is every chunk in delivery order.
   */
  lemma Session(s: State, held: seq<Chunk>, settling: seq<Chunk>)
    requires !s.IsRecording()
    ensures var t := Run(s, [Press] + (Deliveries(held) + ([Release] + (Deliveries(settling) + [SettleElapsed]))));
      && t.final == State(Idle, held + settling)
      && t.processed == [held + settling]
      && t.sessions == 1
  {
    RunAppend(s, [Press], Deliveries(held) + ([Release] + (Deliveries(settling) + [SettleElapsed])));
    assert Run(s, [Press]) == Trace(State(Recording, []), [], 1);
    HoldAndSettle(held, settling);
  }

  /** From a fresh recording: the held chunks, the release, the settling chunks, the end of the delay. */
  lemma HoldAndSettle(held: seq<Chunk>, settling: seq<Chunk>)
    ensures Run(State(Recording, []), Deliveries(held) + ([Release] + (Deliveries(settling) + [SettleElapsed])))
      == Trace(State(Idle, held + settling), [held + settling], 0)
  {
    var s1 := State(Recording, []);
    RunAppend(s1, Deliveries(held), [Release] + (Deliveries(settling) + [SettleElapsed]));
    DeliveriesAppend(s1, held);
    assert [] + held == held;
    var s2 := State(Recording, held);
    RunAppend(s2, [Release], Deliveries(settling) + [SettleElapsed]);
    assert Run(s2, [Release]) == Trace(State(Settling, held), [], 0);
    SettleRun(held, settling);
  }

  /** During the settle delay: the late chunks, then the end of the delay. */
  lemma SettleRun(held: seq<Chunk>, settling: seq<Chunk>)
    ensures Run(State(Settling, held), Deliveries(settling) + [SettleElapsed])
      == Trace(State(Idle, held + settling), [held + settling], 0)
  {
    var s3 := State(Settling, held);
    RunAppend(s3, Deliveries(settling), [SettleElapsed]);
    DeliveriesAppend(s3, settling);
    var s4 := State(Settling, held + settling);
    assert Run(s4, [SettleElapsed]) == Trace(State(Idle, held + settling), [held + settling], 0);
  }

  /** Running two event lists one after the other is running their concatenation. */
  lemma {:induction false} RunAppend(s: State, a: seq<Event>, b: seq<Event>)
    ensures var ta := Run(s, a);
      var tb := Run(ta.final, b);
      Run(s, a + b) == Trace(tb.final, ta.processed + tb.processed, ta.sessions + tb.sessions)
    decreases |a|
  {
    if |a| == 0 {
      assert a + b == b;
    } else {
      assert (a + b)[0] == a[0];
      assert (a + b)[1..] == a[1..] + b;
      RunAppend(Step(s, a[0]).next, a[1..], b);
    }
  }

  /**
    Events in the order their handlers run. Key handlers run one at a time,
    and the release handler is still inside its sleep while Settling, so no
    key event is handled in that phase: one that arrives during the sleep is
    handled after the buffer has been processed.
   */
  predicate HandlerOrder(s: State, events: seq<Event>)
    decreases |events|
  {
    |events| == 0 ||
    ((s.phase == Settling ==> events[0].Deliver? || events[0] == SettleElapsed)
     && HandlerOrder(Step(s, events[0]).next, events[1..]))
  }

  /**
    A press that arrives during the settle sleep is handled once the sleep is
    over and the buffer is processed; it then finds `recording` cleared and
    starts a new session with an empty buffer.
   */
  lemma DeferredPressStartsSession(frames: seq<Chunk>)
    ensures HandlerOrder(State(Settling, frames), [SettleElapsed, Press])
    ensures Run(State(Settling, frames), [SettleElapsed, Press])
      == Trace(State(Recording, []), [frames], 1)
  {
  }
}
