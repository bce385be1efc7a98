/**
 * The assistant-reply stream buffer of handleUserTranscript
 * (frontend/src/main.ts:248-293).
 *
 * One reply turn owns an EventSource, a text buffer, the `rafLock` flag that
 * keeps at most one animation-frame repaint pending, and the reply bubble.
 * Every event the page can deliver to a turn is one atomic step (an awaited
 * call is part of its step); an animation-frame callback is a later,
 * separate `FrameFires` event.
 */
module ReplyStream {
  import opened Wrappers
  import opened Text
  import opened Protocol

  /** The text shown when the stream fails before any text arrived. */
  const ConnectionFailed := "Ошибка соединения с моделью. Попробуйте ещё раз."

  /** One call of the speech sink's streamMessageChunk. */
  datatype TalkChunk = TalkChunk(text: string, isFinal: bool)

  /**
   * Everything one reply turn reads or writes. `self` names this turn's
   * EventSource; `activeES` is the page-wide handle of the newest stream;
   * `display` and `streaming` are the bubble's text and its in-progress mark;
   * `talkActive`, `talkChunks` and `talkEnds` stand for the speech sink.
   */
  datatype Turn = Turn(
    self: nat,
    buffer: string,
    rafLock: bool,
    pendingFrames: nat,
    activeES: Option<nat>,
    closed: bool,
    streaming: bool,
    display: string,
    repaints: nat,
    talkActive: bool,
    talkChunks: seq<TalkChunk>,
    talkEnds: nat)

  /** What can happen to a turn after it has opened. */
  datatype Event =
    | Message(data: string)       // es.onmessage
    | FrameFires                  // a scheduled requestAnimationFrame callback runs
    | StreamError                 // es.onerror
    | TalkActivity(active: bool)  // the speech sink starts or stops reporting isActive()
    | Superseded(other: nat)      // a newer turn stored its own stream in activeES
    | Teardown                    // the avatar session ended: activeES?.close(); activeES = null

  /** The state right after lines 253-262: empty buffer, this stream active, bubble empty and in progress. */
  function Opened(self: nat, talkActive: bool): (t: Turn)
    ensures t.buffer == "" && !t.rafLock && t.pendingFrames == 0 && !t.closed
    ensures t.activeES == Some(self) && t.display == "" && t.streaming
    ensures t.talkChunks == [] && t.talkEnds == 0 && t.repaints == 0 && t.talkActive == talkActive
  {
    Turn(self, "", false, 0, Some(self), false, true, "", 0, talkActive, [], 0)
  }

  /** `activeES` after this turn's stream finished: cleared only if it still names this stream. */
  function Released(t: Turn): Option<nat> {
    if t.activeES == Some(t.self) then None else t.activeES
  }

  /** Lines 266-272: the end marker arrived. */
  function Ended(t: Turn): Turn {
    t.(closed := true, activeES := Released(t),
       talkEnds := if t.talkActive then t.talkEnds + 1 else t.talkEnds,
       streaming := false, display := Trim(t.buffer))
  }

  /** Lines 274-283: a text chunk arrived. */
  function Buffered(t: Turn, chunk: string): Turn {
    t.(talkChunks := if t.talkActive then t.talkChunks + [TalkChunk(chunk, false)] else t.talkChunks,
       buffer := t.buffer + chunk,
       rafLock := true,
       pendingFrames := if t.rafLock then t.pendingFrames else t.pendingFrames + 1)
  }

  /** Lines 278-282: the scheduled frame callback ran. */
  function Repainted(t: Turn): Turn
    requires t.pendingFrames > 0
  {
    t.(display := t.buffer, rafLock := false, pendingFrames := t.pendingFrames - 1,
       repaints := t.repaints + 1)
  }

  /** Lines 286-292: the stream failed. */
  function Failed(t: Turn): Turn {
    t.(closed := true, activeES := Released(t),
       talkEnds := if t.talkActive then t.talkEnds + 1 else t.talkEnds,
       streaming := false,
       display := if t.buffer == "" then ConnectionFailed else t.display)
  }

  /**
   * One event. A closed EventSource dispatches nothing and a frame callback
   * runs only once scheduled, so those events leave the turn as it is.
   */
  function Step(t: Turn, e: Event): Turn {
    match e
    case Message(data) =>
      if t.closed then t
      else if data == EndOfStream then Ended(t)
      else Buffered(t, data)
    case FrameFires => if t.pendingFrames == 0 then t else Repainted(t)
    case StreamError => if t.closed then t else Failed(t)
    case TalkActivity(a) => t.(talkActive := a)
    case Superseded(other) => t.(activeES := Some(other))
    case Teardown => t.(closed := t.closed || t.activeES == Some(t.self), activeES := None)
  }

  /** The events in order. */
  function Run(t: Turn, evs: seq<Event>): Turn
    decreases |evs|
  {
    if evs == [] then t else Run(Step(t, evs[0]), evs[1..])
  }

  /**
   * What every reachable turn satisfies: exactly one frame callback is pending
   * when `rafLock` is set and none otherwise; the bubble keeps its in-progress
   * mark while the stream is open; the speech sink was only ever given
   * non-final text chunks, never the end marker.
   */
  ghost predicate Coherent(t: Turn) {
    && t.pendingFrames == (if t.rafLock then 1 else 0)
    && (!t.closed ==> t.streaming)
    && forall i :: 0 <= i < |t.talkChunks| ==> !t.talkChunks[i].isFinal && t.talkChunks[i].text != EndOfStream
  }

  lemma OpenedIsCoherent(self: nat, talkActive: bool)
    ensures Coherent(Opened(self, talkActive))
  {
  }

  lemma StepKeepsCoherent(t: Turn, e: Event)
    requires Coherent(t)
    ensures Coherent(Step(t, e))
  {
  }

  lemma RunAppend(t: Turn, a: seq<Event>, b: seq<Event>)
    ensures Run(t, a + b) == Run(Run(t, a), b)
    decreases |a|
  {
    if a == [] {
      assert a + b == b;
    } else {
      assert (a + b)[0] == a[0];
      assert (a + b)[1..] == a[1..] + b;
      RunAppend(Step(t, a[0]), a[1..], b);
    }
  }

  /** Every turn reachable from an opened one is coherent, whatever the events. */
  lemma {:induction false} RunKeepsCoherent(t: Turn, evs: seq<Event>)
    requires Coherent(t)
    ensures Coherent(Run(t, evs))
    decreases |evs|
  {
    if evs != [] {
      StepKeepsCoherent(t, evs[0]);
      RunKeepsCoherent(Step(t, evs[0]), evs[1..]);
    }
  }

  /** The message events that deliver `chunks` in order. */
  function Messages(chunks: seq<string>): (evs: seq<Event>)
    ensures |evs| == |chunks|
  {
    if chunks == [] then [] else [Message(chunks[0])] + Messages(chunks[1..])
  }

  function Concat(chunks: seq<string>): string {
    if chunks == [] then "" else chunks[0] + Concat(chunks[1..])
  }

  /** The sink calls that forwarding `chunks` makes: each one, not final. */
  function Forwarded(chunks: seq<string>): seq<TalkChunk> {
    if chunks == [] then [] else [TalkChunk(chunks[0], false)] + Forwarded(chunks[1..])
  }

  predicate NoEndMarker(chunks: seq<string>) {
    forall i :: 0 <= i < |chunks| ==> chunks[i] != EndOfStream
  }

  /** On an open stream, the first of several chunks is buffered before the rest arrive. */
  lemma RunFirstChunk(t: Turn, chunks: seq<string>)
    requires !t.closed && chunks != [] && chunks[0] != EndOfStream
    ensures Run(t, Messages(chunks)) == Run(Buffered(t, chunks[0]), Messages(chunks[1..]))
  {
    var evs := Messages(chunks);
    assert evs[0] == Message(chunks[0]) && evs[1..] == Messages(chunks[1..]);
  }

  /**
   * Text chunks on an open stream: the buffer grows by their concatenation in
   * arrival order, each chunk is also pushed to an active speech sink as a
   * non-final chunk, the bubble is not written and the stream
   * stays open with its repaint lock set.
   */
  lemma {:induction false} ChunksAccumulate(t: Turn, chunks: seq<string>)
    requires !t.closed && NoEndMarker(chunks)
    ensures var r := Run(t, Messages(chunks));
      && r.buffer == t.buffer + Concat(chunks)
      && r.talkChunks == t.talkChunks + (if t.talkActive then Forwarded(chunks) else [])
      && r.display == t.display && r.repaints == t.repaints && r.activeES == t.activeES
      && !r.closed && r.talkActive == t.talkActive && r.talkEnds == t.talkEnds
      && r.rafLock == (t.rafLock || chunks != [])
      && r.pendingFrames == (if t.rafLock || chunks == [] then t.pendingFrames else t.pendingFrames + 1)
    decreases |chunks|
  {
    if chunks == [] {
      assert Messages(chunks) == [];
    } else {
      var s := Buffered(t, chunks[0]);
      RunFirstChunk(t, chunks);
      ChunksAccumulate(s, chunks[1..]);
      assert t.buffer + Concat(chunks) == s.buffer + Concat(chunks[1..]);
      assert Forwarded(chunks) == [TalkChunk(chunks[0], false)] + Forwarded(chunks[1..]);
      if t.talkActive {
        assert t.talkChunks + Forwarded(chunks) == s.talkChunks + Forwarded(chunks[1..]);
      }
    }
  }

  /**
   * Any number of chunks that arrive between two frames cost one repaint, and
   * that repaint shows the whole buffer.
   */
  lemma CoalescedRepaint(t: Turn, chunks: seq<string>)
    requires Coherent(t) && !t.closed && !t.rafLock && chunks != [] && NoEndMarker(chunks)
    ensures var r := Run(t, Messages(chunks) + [FrameFires]);
      && r.repaints == t.repaints + 1
      && r.display == t.buffer + Concat(chunks)
      && !r.rafLock && r.pendingFrames == 0
  {
    RunAppend(t, Messages(chunks), [FrameFires]);
    ChunksAccumulate(t, chunks);
  }

  /** Chunks "a", "b", "c" before the first frame: the bubble is written once, with "abc". */
  lemma CoalescedRepaintExample(self: nat, talkActive: bool)
    ensures var r := Run(Opened(self, talkActive), Messages(["a", "b", "c"]) + [FrameFires]);
      r.repaints == 1 && r.display == "abc"
  {
    CoalescedRepaint(Opened(self, talkActive), ["a", "b", "c"]);
    assert Concat(["a", "b", "c"]) == "abc";
  }

  /**
   * The end marker closes the stream, releases activeES only if it is this
   * stream, ends an active speech message, drops the in-progress mark and
   * writes the trimmed buffer; the marker itself is neither buffered nor
   * forwarded.
   */
  lemma EndOfStreamStep(t: Turn)
    requires !t.closed
    ensures var r := Step(t, Message(EndOfStream));
      && r.closed && !r.streaming && r.display == Trim(t.buffer)
      && r.buffer == t.buffer && r.talkChunks == t.talkChunks
      && r.activeES == (if t.activeES == Some(t.self) then None else t.activeES)
      && r.talkEnds == (if t.talkActive then t.talkEnds + 1 else t.talkEnds)
      && r.rafLock == t.rafLock && r.pendingFrames == t.pendingFrames
  {
  }

  /**
   * An error closes the stream and releases activeES only if it is this
   * stream; the fallback text replaces the bubble's text exactly when nothing
   * was buffered, otherwise the bubble keeps what it showed.
   */
  lemma ErrorStep(t: Turn)
    requires !t.closed
    ensures var r := Step(t, StreamError);
      && r.closed && !r.streaming && r.buffer == t.buffer
      && r.activeES == (if t.activeES == Some(t.self) then None else t.activeES)
      && (t.buffer == "" ==> r.display == ConnectionFailed)
      && (t.buffer != "" ==> r.display == t.display)
  {
  }

  /** Once closed with no frame pending, nothing can change the bubble's text. */
  lemma {:induction false} SettledDisplayIsFinal(t: Turn, evs: seq<Event>)
    requires t.closed && t.pendingFrames == 0
    ensures Run(t, evs).display == t.display
    ensures Run(t, evs).closed && Run(t, evs).pendingFrames == 0
    decreases |evs|
  {
    if evs != [] {
      SettledDisplayIsFinal(Step(t, evs[0]), evs[1..]);
    }
  }

  /** Ending with no repaint pending leaves the trimmed buffer on display for good. */
  lemma EndWithoutPendingFrameIsFinal(t: Turn, later: seq<Event>)
    requires Coherent(t) && !t.closed && !t.rafLock
    ensures Run(Step(t, Message(EndOfStream)), later).display == Trim(t.buffer)
  {
    SettledDisplayIsFinal(Step(t, Message(EndOfStream)), later);
  }

  /**
   * The frame callback is not cancelled by the end marker: a repaint still
   * pending at the end later writes the untrimmed buffer over the trimmed text.
   * With an active speech sink the end handler awaits endMessage before it
   * writes the trimmed text, and the frame may run during that wait; this is
   * stated for an inactive sink, where the handler does not wait.
   */
  lemma PendingFrameOverwritesTrim(t: Turn)
    requires Coherent(t) && !t.closed && t.rafLock && !t.talkActive
    ensures Run(t, [Message(EndOfStream), FrameFires]).display == t.buffer
  {
    var evs := [Message(EndOfStream), FrameFires];
    assert evs[1..] == [FrameFires];
    assert Run(t, evs) == Run(Ended(t), [FrameFires]);
    assert Run(Ended(t), [FrameFires]) == Run(Repainted(Ended(t)), []);
  }

  /** For instance: " a" then the end marker, then the pending frame: the bubble shows " a", not "a". */
  lemma PendingFrameOverwritesTrimExample(self: nat)
    ensures var r := Run(Opened(self, false), [Message(" a"), Message(EndOfStream), FrameFires]);
      r.display == " a" && Trim(" a") == "a"
  {
    var t0 := Opened(self, false);
    var evs := [Message(" a"), Message(EndOfStream), FrameFires];
    assert evs[1..] == [Message(EndOfStream), FrameFires];
    var t := Buffered(t0, " a");
    assert Run(t0, evs) == Run(t, evs[1..]);
    PendingFrameOverwritesTrim(t);
    TrimExample();
  }

  lemma TrimExample()
    ensures Trim(" a") == "a"
  {
    assert " a"[1..] == "a";
    assert TrimStart(" a") == TrimStart("a") == "a";
  }

  /**
   * One reply turn, with the fields handleUserTranscript's closures and the
   * page's activeES keep. Each method is one event; State() is the turn as a
   * value, and every method moves it by Step.
   */
  class ReplyTurn {
    const self: nat
    var buffer: string
    var rafLock: bool
    var pendingFrames: nat
    var activeES: Option<nat>
    var closed: bool
    var streaming: bool
    var display: string
    var repaints: nat
    var talkActive: bool
    var talkChunks: seq<TalkChunk>
    var talkEnds: nat

    function State(): Turn
      reads this
    {
      Turn(self, buffer, rafLock, pendingFrames, activeES, closed, streaming, display,
           repaints, talkActive, talkChunks, talkEnds)
    }

    ghost predicate Valid()
      reads this
    {
      Coherent(State())
    }

    /** Lines 253-262, once a non-empty transcript and a client let the turn start. */
    constructor (streamId: nat, sinkActive: bool)
      ensures Valid() && State() == Opened(streamId, sinkActive)
    {
      self := streamId;
      buffer := "";
      rafLock := false;
      pendingFrames := 0;
      activeES := Some(streamId);
      closed := false;
      streaming := true;
      display := "";
      repaints := 0;
      talkActive := sinkActive;
      talkChunks := [];
      talkEnds := 0;
    }

    /** es.onmessage (lines 264-284): the end marker finishes the turn, anything else is a chunk. */
    method OnMessage(data: string)
      requires Valid() && !closed
      modifies this
      ensures Valid() && State() == Step(old(State()), Message(data))
      ensures data == EndOfStream ==> closed && display == Trim(buffer) && buffer == old(buffer)
      ensures data != EndOfStream ==> buffer == old(buffer) + data && rafLock && !closed
    {
      if data == EndOfStream {
        Finish();
      } else {
        Accept(data);
      }
    }

    /** Lines 267-271. */
    method Finish()
      requires Valid() && !closed
      modifies this
      ensures Valid() && State() == Ended(old(State()))
    {
      StepKeepsCoherent(State(), Message(EndOfStream));
      closed := true;
      activeES := Released(State());
      if talkActive {
        talkEnds := talkEnds + 1;
      }
      streaming := false;
      display := Trim(buffer);
    }

    /** Lines 274-283. */
    method Accept(chunk: string)
      requires Valid() && !closed && chunk != EndOfStream
      modifies this
      ensures Valid() && State() == Buffered(old(State()), chunk)
    {
      StepKeepsCoherent(State(), Message(chunk));
      if talkActive {
        talkChunks := talkChunks + [TalkChunk(chunk, false)];
      }
      buffer := buffer + chunk;
      if !rafLock {
        rafLock := true;
        pendingFrames := pendingFrames + 1;
      }
    }

    /** The requestAnimationFrame callback of lines 278-282. */
    method OnFrame()
      requires Valid() && pendingFrames > 0
      modifies this
      ensures Valid() && State() == Step(old(State()), FrameFires)
      ensures display == buffer && !rafLock && pendingFrames == 0
    {
      display := buffer;
      repaints := repaints + 1;
      rafLock := false;
      pendingFrames := pendingFrames - 1;
    }

    /** es.onerror (lines 286-292). */
    method OnError()
      requires Valid() && !closed
      modifies this
      ensures Valid() && State() == Step(old(State()), StreamError)
      ensures display == (if buffer == "" then ConnectionFailed else old(display))
    {
      closed := true;
      if activeES == Some(self) {
        activeES := None;
      }
      if talkActive {
        talkEnds := talkEnds + 1;
      }
      streaming := false;
      if buffer == "" {
        display := ConnectionFailed;
      }
    }

    /** The speech sink changes what isActive() reports. */
    method SetTalkActive(active: bool)
      requires Valid()
      modifies this
      ensures Valid() && State() == Step(old(State()), TalkActivity(active))
    {
      talkActive := active;
    }

    /** A newer turn stores its stream in activeES (line 260 of that turn). */
    method Supersede(other: nat)
      requires Valid()
      modifies this
      ensures Valid() && State() == Step(old(State()), Superseded(other))
    {
      activeES := Some(other);
    }

    /** terminateAvatarSession closes the active stream and clears the handle (lines 192-193). */
    method TearDown()
      requires Valid()
      modifies this
      ensures Valid() && State() == Step(old(State()), Teardown)
      ensures activeES.None? && (old(activeES) == Some(self) ==> closed)
    {
      if activeES == Some(self) {
        closed := true;
      }
      activeES := None;
    }
  }
}
