/**
 * The live user transcript and the recording flags
 * (frontend/src/main.ts:178-186, 191-243).
 *
 * While recording into a live user bubble, every conversation-history update
 * whose last entry is a non-empty user entry appends a blank and that entry's
 * content to the transcript, and the bubble shows the trimmed transcript.
 * Stopping hands the trimmed transcript to the reply turn when it is not empty.
 */
module VoiceInput {
  import opened Wrappers
  import opened Text

  /** One entry of the avatar service's conversation history. */
  datatype Entry = Entry(role: string, content: string)

  /** The user bubble being dictated into: its text and its in-progress mark. */
  datatype UserBubble = UserBubble(text: string, streaming: bool)

  /**
   * The page's recording state: isRecording, userTranscript and
   * currentUserBubble, and the transcripts handed to handleUserTranscript.
   */
  datatype Voice = Voice(isRecording: bool, transcript: string, bubble: Option<UserBubble>, submitted: seq<string>)

  /** The content of the last history entry, when that entry is the user's and its content is not empty. */
  function LastUserContent(messages: seq<Entry>): (r: Option<string>)
    ensures r.Some? <==> |messages| > 0 && messages[|messages| - 1].role == "user" && messages[|messages| - 1].content != ""
    ensures r.Some? ==> r.value == messages[|messages| - 1].content
  {
    if |messages| == 0 then None
    else
      var last := messages[|messages| - 1];
      if last.role == "user" && last.content != "" then Some(last.content) else None
  }

  /** The MESSAGE_HISTORY_UPDATED listener (lines 178-186). */
  function HistoryUpdated(v: Voice, messages: seq<Entry>): Voice {
    if !v.isRecording || v.bubble.None? then v
    else
      match LastUserContent(messages)
      case None => v
      case Some(c) =>
        var t := v.transcript + " " + c;
        v.(transcript := t, bubble := Some(v.bubble.value.(text := Trim(t))))
  }

  /**
   * startRecording (lines 207-224); without a selected chat it only warns.
   * `sessionFailed` says that the avatar session it awaits first (line 209)
   * threw, as a failed token fetch does: the handler then stops before it
   * touches this state.
   */
  function Started(v: Voice, chatSelected: bool, sessionFailed: bool): Voice {
    if !chatSelected || sessionFailed then v
    else v.(isRecording := true, transcript := "", bubble := Some(UserBubble("", true)))
  }

  /**
   * stopRecording (lines 226-237): the turn is started on the trimmed
   * transcript when that is not empty; the bubble reference is dropped
   * either way and the transcript itself is kept. What the dropped bubble
   * then shows on the page (its text and in-progress mark) is not modelled.
   */
  function Stopped(v: Voice): Voice {
    var said := Trim(v.transcript);
    if v.bubble.Some? && said != "" then
      v.(isRecording := false, bubble := None, submitted := v.submitted + [said])
    else
      v.(isRecording := false, bubble := None)
  }

  /** toggleRecording (lines 239-243). */
  function Toggled(v: Voice, chatSelected: bool, sessionFailed: bool): Voice {
    if !chatSelected then v
    else if v.isRecording then Stopped(v)
    else Started(v, true, sessionFailed)
  }

  /** terminateAvatarSession clears isRecording and nothing else of this state (line 196). */
  function SessionEnded(v: Voice): Voice {
    v.(isRecording := false)
  }

  /** The page as loaded: not recording, empty transcript, no bubble, nothing submitted. */
  function Idle(): Voice {
    Voice(false, "", None, [])
  }

  /** What the listener appends for each update of a sequence. */
  function Spoken(updates: seq<seq<Entry>>): string {
    if updates == [] then ""
    else
      (match LastUserContent(updates[0]) case Some(c) => " " + c case None => "") + Spoken(updates[1..])
  }

  /** The listener run on each update in turn. */
  function Apply(v: Voice, updates: seq<seq<Entry>>): Voice
    decreases |updates|
  {
    if updates == [] then v else Apply(HistoryUpdated(v, updates[0]), updates[1..])
  }

  /**
   * While recording into a bubble, a run of history updates grows the
   * transcript by exactly what they say, in order, and keeps recording into
   * the same, still in-progress bubble.
   */
  lemma {:induction false} HistoryAccumulates(v: Voice, updates: seq<seq<Entry>>)
    requires v.isRecording && v.bubble.Some?
    ensures var r := Apply(v, updates);
      && r.isRecording && r.bubble.Some? && r.submitted == v.submitted
      && r.transcript == v.transcript + Spoken(updates)
      && r.bubble.value.streaming == v.bubble.value.streaming
    decreases |updates|
  {
    if updates != [] {
      var w := HistoryUpdated(v, updates[0]);
      HistoryAccumulates(w, updates[1..]);
      match LastUserContent(updates[0])
      case None =>
        assert Spoken(updates) == Spoken(updates[1..]);
      case Some(c) =>
        assert Spoken(updates) == " " + c + Spoken(updates[1..]);
        assert v.transcript + Spoken(updates) == w.transcript + Spoken(updates[1..]);
    }
  }

  /**
   * After such a run the bubble shows the trimmed transcript, or is untouched
   * when nothing was said.
   */
  lemma {:induction false} HistoryShowsTrimmed(v: Voice, updates: seq<seq<Entry>>)
    requires v.isRecording && v.bubble.Some?
    ensures var r := Apply(v, updates);
      r.bubble.Some? && r.bubble.value.text == (if Spoken(updates) == "" then v.bubble.value.text else Trim(r.transcript))
    decreases |updates|
  {
    if updates != [] {
      var w := HistoryUpdated(v, updates[0]);
      HistoryShowsTrimmed(w, updates[1..]);
      HistoryAccumulates(w, updates[1..]);
      match LastUserContent(updates[0])
      case None =>
        assert Spoken(updates) == Spoken(updates[1..]);
      case Some(c) =>
        assert Spoken(updates) == " " + c + Spoken(updates[1..]);
        if Spoken(updates[1..]) == "" {
          assert Apply(w, updates[1..]).transcript == w.transcript + "" == w.transcript;
        }
    }
  }

  /** Without recording or without a bubble, history updates change nothing. */
  lemma {:induction false} HistoryIgnoredWhenIdle(v: Voice, updates: seq<seq<Entry>>)
    requires !v.isRecording || v.bubble.None?
    ensures Apply(v, updates) == v
    decreases |updates|
  {
    if updates != [] {
      HistoryIgnoredWhenIdle(HistoryUpdated(v, updates[0]), updates[1..]);
    }
  }

  /**
   * Start, any history updates, stop: exactly the trimmed concatenation of
   * what was said is submitted, and only when it is not empty.
   */
  lemma DictationSubmitsWhatWasSaid(v: Voice, updates: seq<seq<Entry>>)
    ensures var r := Stopped(Apply(Started(v, true, false), updates));
      && !r.isRecording && r.bubble.None?
      && r.submitted == v.submitted + (if Trim(Spoken(updates)) != "" then [Trim(Spoken(updates))] else [])
  {
    HistoryAccumulates(Started(v, true, false), updates);
    assert "" + Spoken(updates) == Spoken(updates);
  }

  /**
   * When the avatar session cannot be started, pressing the button while
   * idle leaves recording off, and the history updates that follow change
   * nothing.
   */
  lemma FailedStartIgnoresHistory(v: Voice, updates: seq<seq<Entry>>)
    requires !v.isRecording
    ensures Toggled(v, true, true) == v
    ensures Apply(Toggled(v, true, true), updates) == v
  {
    HistoryIgnoredWhenIdle(v, updates);
  }

  /** Every transcript handed on is non-empty and already trimmed. */
  ghost predicate Coherent(v: Voice) {
    forall i :: 0 <= i < |v.submitted| ==> v.submitted[i] != "" && Trim(v.submitted[i]) == v.submitted[i]
  }

  lemma StoppedKeepsCoherent(v: Voice)
    requires Coherent(v)
    ensures Coherent(Stopped(v))
  {
    TrimIdempotent(v.transcript);
  }

  /**
   * The page-level recording state as an object: each method is one handler
   * and moves State() by the function of the same name.
   */
  class VoiceCapture {
    var isRecording: bool
    var transcript: string
    var bubble: Option<UserBubble>
    var submitted: seq<string>

    function State(): Voice
      reads this
    {
      Voice(isRecording, transcript, bubble, submitted)
    }

    ghost predicate Valid()
      reads this
    {
      Coherent(State())
    }

    /** The module-level initial values (lines 80-82). */
    constructor ()
      ensures Valid() && State() == Idle()
    {
      isRecording := false;
      transcript := "";
      bubble := None;
      submitted := [];
    }

    /** The MESSAGE_HISTORY_UPDATED listener (lines 178-186). */
    method OnHistoryUpdated(messages: seq<Entry>)
      requires Valid()
      modifies this
      ensures Valid() && State() == HistoryUpdated(old(State()), messages)
      ensures old(isRecording) && old(bubble).Some? && LastUserContent(messages).Some? ==>
                transcript == old(transcript) + " " + LastUserContent(messages).value
                && bubble == Some(old(bubble).value.(text := Trim(transcript)))
      ensures !(old(isRecording) && old(bubble).Some? && LastUserContent(messages).Some?) ==>
                State() == old(State())
    {
      if !isRecording || bubble.None? {
        return;
      }
      var last := LastUserContent(messages);
      if last.Some? {
        transcript := transcript + " " + last.value;
        bubble := Some(bubble.value.(text := Trim(transcript)));
      }
    }

    /** startRecording (lines 207-224), with the outcome of the session start it awaits. */
    method StartRecording(chatSelected: bool, sessionFailed: bool)
      requires Valid()
      modifies this
      ensures Valid() && State() == Started(old(State()), chatSelected, sessionFailed)
      ensures chatSelected && !sessionFailed ==> isRecording && transcript == "" && bubble == Some(UserBubble("", true))
      ensures !chatSelected || sessionFailed ==> State() == old(State())
    {
      if !chatSelected || sessionFailed {
        return;
      }
      isRecording := true;
      transcript := "";
      bubble := Some(UserBubble("", true));
    }

    /** stopRecording (lines 226-237). */
    method StopRecording()
      requires Valid()
      modifies this
      ensures Valid() && State() == Stopped(old(State()))
      ensures !isRecording && bubble.None? && transcript == old(transcript)
      ensures submitted == old(submitted) + (if old(bubble).Some? && Trim(old(transcript)) != "" then [Trim(old(transcript))] else [])
    {
      StoppedKeepsCoherent(State());
      isRecording := false;
      var said := Trim(transcript);
      if bubble.Some? && said != "" {
        submitted := submitted + [said];
      }
      bubble := None;
    }

    /** toggleRecording (lines 239-243). */
    method ToggleRecording(chatSelected: bool, sessionFailed: bool)
      requires Valid()
      modifies this
      ensures Valid() && State() == Toggled(old(State()), chatSelected, sessionFailed)
    {
      if !chatSelected {
        return;
      }
      if isRecording {
        StopRecording();
      } else {
        StartRecording(true, sessionFailed);
      }
    }

    /** The part of terminateAvatarSession that touches this state (line 196). */
    method EndSession()
      requires Valid()
      modifies this
      ensures Valid() && State() == SessionEnded(old(State()))
      ensures !isRecording
    {
      isRecording := false;
    }
  }
}
