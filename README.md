# Psychology-machines avatar chat: a Dafny model of its core

The repository is a browser page that talks to a speaking avatar and a
small Python backend that streams an assistant's reply and proxies the
avatar service. This project models the parts of that code whose
behaviour can be stated exactly, and proves what they promise:

- **Route rewriting** (`AnamRoutes`, frontend_routes.dfy). The page patches
  `fetch` and `EventSource` so that every URL starting with the avatar
  origin `https://api.anam.ai` goes to the same-origin proxy path
  `/anam/api` instead. This file also holds the model-name to persona mapping.
- **Reply stream buffer** (`ReplyStream`, frontend_reply.dfy). One
  assistant reply turn receives text chunks over an EventSource.
  - Each chunk is appended to a buffer, and passed to the speech sink when that sink is active.
  - Repaints are coalesced through `rafLock`.
  - The turn ends on the `__END_OF_STREAM__` item or on an error.
  - Every event is one step of a pure `Step` function over a `Turn` value.
  - The class `ReplyTurn` keeps the same fields and moves by `Step`.
- **Voice input** (`VoiceInput`, frontend_voice.dfy). This is the live user
  transcript grown by conversation-history updates, plus the
  start/stop/toggle recording handlers. It has pure step functions and a
  class `VoiceCapture`.
- **Chat list** (`ChatList`, frontend_chats.dfy). Create, rename, delete,
  select and restore work over the name list and a key-to-text map that
  stands for local storage. The list and map transformations are pure
  functions; the class `ChatStore` holds the page's state.
- **Backend request layer** (`Backend`, backend_main.dfy). It consists of:
  - the Referer gate and model lookup of `/api/generate-assistant-response`;
  - the session-token endpoint;
  - the generic `/anam/api/*` proxy: the OPTIONS short-circuit, the upstream
    URL, hop-by-hop header filtering, the media-type default and the
    event-stream headers.
- **Reply framer** (`StreamFramer`, backend_stream.dfy). `stream_generator`
  keeps message deltas only. It strips `【n:m†source】` citation markers with
  a hand-written matcher for the regular expression, removes asterisks, and
  ends with the end marker, with a 504 on a timeout, or with any other
  exception propagated as raised.

Shared pieces:
- `Wrappers` (Option/Result);
- `Text`, which has three parts:
  - ECMAScript `String.prototype.trim` over the WhiteSpace and
    LineTerminator code points;
  - ASCII lower-casing;
  - first-occurrence search and replace, as JavaScript's `replace` does it
    with a string pattern and a replacement without "$";
- `Protocol` (the end-of-stream item both programs agree on, and `HttpError`, the HTTPException the backend raises).

The OpenAI client, the HTTP client and the avatar SDK are not modelled.
What they would answer is a parameter (a thread id, an upstream reply, an
"is the speech sink active" flag, whether starting the avatar session threw). So are the wall clock, the DOM and
local-storage JSON.

## Model

| member | source | states |
|---|---|---|
| AnamRoutes.ProxiedUrl | frontend/src/main.ts:22-23 | a URL starting with the avatar origin becomes the proxy path followed by the rest of the URL; any other URL is unchanged |
| AnamRoutes.PatchedFetchInput | frontend/src/main.ts:16-45 | the new input's URL is the proxied one; a Request aimed at the origin is rebuilt with the fields the patch copies; a string or URL object becomes the rewritten string; inputs not aimed at the origin pass untouched |
| AnamRoutes.PatchedEventSourceUrl | frontend/src/main.ts:47-54 | a string or URL object aimed at the avatar origin connects to the proxy path plus the rest; any other URL is used as given |
| AnamRoutes.FetchAndEventSourceAgree | frontend/src/main.ts:47-54 | fetch and EventSource reroute the same URL to the same place |
| AnamRoutes.PrefixWithoutBoundary | frontend/src/main.ts:22 | the origin test is a plain prefix test, so whatever text follows the origin is kept after the proxy path |
| AnamRoutes.PersonaFromModel | frontend/src/main.ts:107-111 | total: NICK_MODEL gives Leo, JOHN_PULSE_MODEL gives Pablo, and every other name (and only those) gives Eva |
| Text.Trim | frontend/src/main.ts:183 | String.prototype.trim, used at lines 183, 231, 271 and 371: never longer than its input, and the result neither starts nor ends with whitespace or a line terminator |
| Text.TrimShape | frontend/src/main.ts:183 | trim returns a slice of its input whose dropped ends are all whitespace or line terminators and whose first and last characters are not |
| Text.TrimIdempotent | frontend/src/main.ts:231-234 | trimming a trimmed string changes nothing |
| Text.TrimEmptyIff | frontend/src/main.ts:231 | the trimmed string is empty exactly when every character is whitespace or a line terminator |
| Text.TrimDropsLeadingSpace | frontend/src/main.ts:182-183 | the blank prepended to each dictated piece never shows: trim of a blank plus s equals trim of s |
| Text.IndexOf | frontend/src/main.ts:23 | the result is the first position where the pattern occurs, or none when it occurs nowhere |
| Text.ReplaceFirst | frontend/src/main.ts:23 | String.prototype.replace with a string pattern and a replacement without "$": an absent pattern leaves the text alone; otherwise only the first occurrence is swapped for the replacement, with the text before and after it kept |
| Text.ReplaceFirstOfPrefix | frontend/src/main.ts:23 | replacing a pattern the string starts with swaps just that prefix |
| Text.AsciiLower | backend/app/main.py:141 | the lower-cased name has the same length and each character mapped by ASCII lower-casing |
| ReplyStream.Step | frontend/src/main.ts:264-292 | the handler dispatch: a message or an error on a closed stream does nothing; the end marker ends the turn; any other message is buffered; a frame callback runs only when one is pending; the sink flag, a newer stream and the teardown change activeES and the flags as lines 192-193 and 260 do (partners: StepKeepsCoherent, EndOfStreamStep, ErrorStep, ChunksAccumulate) |
| ReplyStream.Ended | frontend/src/main.ts:266-272 | the end handler: stream closed, activeES released only when it names this stream, the active sink's message ended, in-progress mark dropped, trimmed buffer shown |
| ReplyStream.Buffered | frontend/src/main.ts:274-283 | the chunk handler: the chunk goes to an active sink as non-final text, is appended to the buffer, and a frame is scheduled only when none is pending |
| ReplyStream.Repainted | frontend/src/main.ts:278-282 | the frame callback: the whole buffer is shown and the lock released |
| ReplyStream.Failed | frontend/src/main.ts:286-292 | the error handler: stream closed, activeES released only when it names this stream, the active sink's message ended, the fallback text shown only when nothing was buffered |
| ReplyStream.Opened | frontend/src/main.ts:253-262 | a new turn has an empty buffer, no pending frame, its own stream as activeES, an empty in-progress bubble and nothing sent to the speech sink |
| ReplyStream.OpenedIsCoherent | frontend/src/main.ts:255-256 | a new turn satisfies the turn invariant |
| ReplyStream.StepKeepsCoherent | frontend/src/main.ts:264-292 | every event keeps the invariant: one pending frame exactly when rafLock is set, the bubble stays in progress while the stream is open, the sink has received only non-final chunks and never the end marker |
| ReplyStream.RunKeepsCoherent | frontend/src/main.ts:264-292 | any sequence of events keeps the invariant |
| ReplyStream.RunAppend | frontend/src/main.ts:264-292 | running two event sequences one after the other is running their concatenation |
| ReplyStream.Messages | frontend/src/main.ts:264-265 | one message event per chunk |
| ReplyStream.ChunksAccumulate | frontend/src/main.ts:274-283 | after any non-end chunks the buffer is the old buffer plus their concatenation in arrival order; an active sink got each chunk once, in order, not final; the bubble is not written; the stream stays open with the repaint lock set |
| ReplyStream.CoalescedRepaint | frontend/src/main.ts:276-282 | any number of chunks between two frames give exactly one repaint, and it shows the whole buffer |
| ReplyStream.CoalescedRepaintExample | frontend/src/main.ts:276-282 | chunks "a", "b", "c" before the first frame give one repaint showing "abc" |
| ReplyStream.EndOfStreamStep | frontend/src/main.ts:266-272 | the end marker closes the stream, clears activeES only if it names this stream, ends an active speech message, drops the in-progress mark and shows the trimmed buffer; the marker is neither buffered nor forwarded |
| ReplyStream.ErrorStep | frontend/src/main.ts:286-292 | an error closes the stream and clears activeES only if it names this stream; the fallback text is shown if and only if the buffer is empty, otherwise the bubble keeps its text |
| ReplyStream.SettledDisplayIsFinal | frontend/src/main.ts:264-292 | once the stream is closed with no frame pending, no later event changes the bubble's text |
| ReplyStream.EndWithoutPendingFrameIsFinal | frontend/src/main.ts:271 | ending with no repaint pending leaves the trimmed buffer on display for good |
| ReplyStream.PendingFrameOverwritesTrim | frontend/src/main.ts:269-282 | with an inactive speech sink, so that the end handler does not wait, a frame still pending at the end marker later writes the untrimmed buffer over the trimmed text |
| ReplyStream.PendingFrameOverwritesTrimExample | frontend/src/main.ts:271-279 | " a", the end marker and then the pending frame leave " a" on display, not "a" |
| ReplyStream.ReplyTurn.constructor | frontend/src/main.ts:253-262 | the object starts in the opened state, coherent |
| ReplyStream.ReplyTurn.OnMessage | frontend/src/main.ts:264-284 | the object moves by the message step; the end marker closes it with the trimmed buffer shown; any other chunk is appended to the buffer and locks the repaint |
| ReplyStream.ReplyTurn.Finish | frontend/src/main.ts:266-272 | the object moves to the ended state and stays coherent |
| ReplyStream.ReplyTurn.Accept | frontend/src/main.ts:274-283 | the object moves to the buffered state and stays coherent |
| ReplyStream.ReplyTurn.OnFrame | frontend/src/main.ts:278-282 | the frame callback shows the whole buffer and releases the lock |
| ReplyStream.ReplyTurn.OnError | frontend/src/main.ts:286-292 | the object moves by the error step; the fallback text is shown exactly when the buffer is empty |
| ReplyStream.ReplyTurn.SetTalkActive | frontend/src/main.ts:274 | the sink's activity flag changes and nothing else |
| ReplyStream.ReplyTurn.Supersede | frontend/src/main.ts:260 | a newer turn takes over activeES |
| ReplyStream.ReplyTurn.TearDown | frontend/src/main.ts:192-193 | the session teardown closes this stream if it is the active one and clears activeES |
| VoiceInput.HistoryUpdated | frontend/src/main.ts:178-186 | the history listener: without recording or a bubble, or when the last entry is not a non-empty user entry, nothing changes; otherwise a blank and the content are appended and the bubble shows the trimmed transcript (partners: HistoryAccumulates, HistoryShowsTrimmed, HistoryIgnoredWhenIdle) |
| VoiceInput.Started | frontend/src/main.ts:207-224 | startRecording: nothing changes without a selected chat or when the awaited session start throws; otherwise recording starts with an empty transcript and a new in-progress bubble |
| VoiceInput.Stopped | frontend/src/main.ts:226-237 | stopRecording: recording off, bubble dropped, transcript kept, and the trimmed transcript handed on only when there was a bubble and it is not empty (partner: StoppedKeepsCoherent) |
| VoiceInput.Toggled | frontend/src/main.ts:239-243 | toggleRecording: nothing without a selected chat, otherwise stop when recording and start when not |
| VoiceInput.SessionEnded | frontend/src/main.ts:196 | session teardown clears the recording flag and nothing else of this state |
| VoiceInput.LastUserContent | frontend/src/main.ts:180-181 | some content exactly when the last history entry is a user entry with non-empty content, and then that content |
| VoiceInput.HistoryAccumulates | frontend/src/main.ts:178-186 | while recording into a bubble, history updates grow the transcript by a blank plus each user content, in order, and recording continues into the same bubble |
| VoiceInput.HistoryShowsTrimmed | frontend/src/main.ts:183 | afterwards the bubble shows the trimmed transcript, or its old text when nothing was said |
| VoiceInput.HistoryIgnoredWhenIdle | frontend/src/main.ts:179 | without recording or without a bubble, history updates change nothing |
| VoiceInput.DictationSubmitsWhatWasSaid | frontend/src/main.ts:220-236 | start, updates, stop: the trimmed concatenation of what was said is handed on exactly when it is non-empty, and the bubble is dropped |
| VoiceInput.FailedStartIgnoresHistory | frontend/src/main.ts:207-209 | when the session start throws, pressing the button while idle leaves recording off and later history updates change nothing |
| VoiceInput.StoppedKeepsCoherent | frontend/src/main.ts:231-234 | every transcript handed on is non-empty and already trimmed |
| VoiceInput.VoiceCapture.constructor | frontend/src/main.ts:80-82 | not recording, empty transcript, no bubble |
| VoiceInput.VoiceCapture.OnHistoryUpdated | frontend/src/main.ts:178-186 | with recording and a bubble, a user update appends a blank and its content and shows the trimmed transcript; otherwise nothing changes |
| VoiceInput.VoiceCapture.StartRecording | frontend/src/main.ts:207-224 | with a chat selected and a session start that did not throw, recording starts with an empty transcript and a new empty in-progress bubble; otherwise nothing changes |
| VoiceInput.VoiceCapture.StopRecording | frontend/src/main.ts:226-237 | recording stops, the bubble is dropped, the transcript is kept, and the trimmed transcript is handed on only when there was a bubble and it is non-empty |
| VoiceInput.VoiceCapture.ToggleRecording | frontend/src/main.ts:239-243 | with a chat selected, stops when recording and otherwise starts, subject to the session start; without one nothing changes |
| VoiceInput.VoiceCapture.EndSession | frontend/src/main.ts:196 | session teardown clears the recording flag only |
| ChatList.Dedup | frontend/src/main.ts:373-375 | the result has no repeats and holds exactly the names of its input |
| ChatList.DedupKeepsFirstOccurrenceOrder | frontend/src/main.ts:373-375 | deduplicating any prefix gives a prefix of the result, so names stay in first-occurrence order as a Set's iteration keeps them |
| ChatList.DedupOrderExample | frontend/src/main.ts:373-375 | ["b", "a", "b"] becomes ["b", "a"] |
| ChatList.DedupOfDistinct | frontend/src/main.ts:373-375 | a list without repeats is its own deduplication |
| ChatList.CreatedNames | frontend/src/main.ts:373-375 | the list after create has no repeats, holds exactly the old names and the new one, and starts with the deduplicated old list |
| ChatList.CreatedNamesShape | frontend/src/main.ts:373-375 | the list after create is the deduplicated old list, with the new name appended only if it was absent, each name once |
| ChatList.CreatedOverDistinct | frontend/src/main.ts:373-375 | over a list of distinct names, create leaves it as it is or appends the name |
| ChatList.RenamedNames | frontend/src/main.ts:330 | a rename keeps the list's length |
| ChatList.RenameReplacesEveryOccurrence | frontend/src/main.ts:330 | renaming to a different name puts the new name at every place the old one stood, so the old name is gone; every other entry keeps its place; the new name is present exactly when either name was |
| ChatList.DeletedNames | frontend/src/main.ts:344 | delete removes every occurrence of the name and keeps all other names |
| ChatList.DeletedNamesAppend | frontend/src/main.ts:344 | delete only drops entries and never reorders them |
| ChatList.DeletedKeepsDistinct | frontend/src/main.ts:344 | deleting from a list without repeats leaves one without repeats |
| ChatList.CreatedStore | frontend/src/main.ts:376 | create stores an empty message list under the name even if data existed, and keeps all other keys |
| ChatList.RenamedStore | frontend/src/main.ts:327-328 | the data moves to the new key only when the old key holds non-empty text, with every other key kept; otherwise storage is unchanged |
| ChatList.DeletedStore | frontend/src/main.ts:342 | delete removes the chat's key and keeps all other data |
| ChatList.RenameTarget | frontend/src/main.ts:325 | the prompt's answer when given and non-empty, otherwise the old name |
| ChatList.RenameOntoExisting | frontend/src/main.ts:326-330 | for every list holding both names, renaming onto the existing one is not refused: both former places hold the new name, the length is kept, and when the old name had data that data replaces the existing chat's and the old key is gone |
| ChatList.RenameOntoExistingExample | frontend/src/main.ts:326-330 | for instance, renaming "a" onto "b" in ["a", "b"] gives ["b", "b"] and keeps only "a"'s data, under "b" |
| ChatList.ChatStore.constructor | frontend/src/main.ts:298-302 | the page as loaded: stored names and data, no chat selected |
| ChatList.ChatStore.Restore | frontend/src/main.ts:441-442 | a non-empty saved selection is selected again, whether or not that chat still exists |
| ChatList.ChatStore.Select | frontend/src/main.ts:382-384 | the chat becomes current and is saved as the selection |
| ChatList.ChatStore.Create | frontend/src/main.ts:369-380 | without a persona or with a blank name nothing changes; otherwise the trimmed name is added once, its data reset and the chat selected |
| ChatList.ChatStore.Rename | frontend/src/main.ts:323-335 | a different non-empty target renames the data and the list and follows the current selection; the saved selection is not updated; otherwise nothing changes |
| ChatList.ChatStore.Delete | frontend/src/main.ts:339-352 | data and every list entry go; teardown is requested exactly when it was the current chat, which is then cleared; the saved selection is left as it was |
| Backend.RefererAllowed | backend/app/main.py:64-68 | accepted exactly when the Referer starts with https://psychology-machines.ru/ or http://localhost:5173; a missing header counts as empty |
| Backend.MissingRefererRejected | backend/app/main.py:64-68 | a missing or empty Referer is refused |
| Backend.RefererPrefixEdges | backend/app/main.py:65-67 | the site without its trailing slash is refused, while "http://localhost:5173" followed by any text at all is accepted (for instance "http://localhost:51730/") |
| Backend.AssistantRequest | backend/app/main.py:57-95 | a bad Referer gives 403; an unknown model gives 500; otherwise the assistant of the model map, the prompt and thread, and exactly the three headers the handler passes to EventSourceResponse (which adds defaults of its own) |
| Backend.BothModelsShareAssistant | backend/app/models.py:10-13 | for every request, both model names lead to the same answer: the same assistant when the Referer passes, the same 403 when it does not |
| Backend.IsHopByHop | backend/app/main.py:34-37 | a header name is hop-by-hop when its lower-cased spelling is one of the ten listed names (partners: HopByHopLengths, AcceptEncodingNotHopByHop, HopHeadersDroppedInAnyCase) |
| Backend.FilterHeaders | backend/app/main.py:141 | the filtered headers hold exactly the non-hop-by-hop names that occur, each with its last value |
| Backend.HopHeadersDroppedInAnyCase | backend/app/main.py:141 | for every header list, a name whose lower-cased spelling is one of the ten is never forwarded, whatever its case, and any other name that occurs is forwarded |
| Backend.TeDroppedExample | backend/app/main.py:141 | for instance, "TE" is dropped and "X-Request" kept |
| Backend.OtherSpellingForwardedBeside | backend/app/main.py:141-143 | a header whose name differs from Accept-Encoding in case is forwarded next to the forced Accept-Encoding |
| Backend.AcceptEncodingNotHopByHop | backend/app/main.py:34-37 | accept-encoding is not a hop-by-hop name |
| Backend.HopByHopLengths | backend/app/main.py:34-37 | proof helper, not a property of the program: only names as long as one of the ten listed can be hop-by-hop |
| Backend.PlanProxy | backend/app/main.py:134-146 | OPTIONS is answered locally with 204, exactly then; any other method goes to the base URL plus "/" plus the path with query and body unchanged, filtered headers and Accept-Encoding identity |
| Backend.ProxyMediaType | backend/app/main.py:158 | a missing or empty upstream content type gives application/octet-stream, any other is kept |
| Backend.ProxyResponse | backend/app/main.py:151-188 | a transport failure gives 502; otherwise the upstream status, the defaulted media type, filtered headers, and for an event stream buffering off, no-cache and keep-alive (Connection included) |
| Backend.SessionTokenCall | backend/app/main.py:101-117 | 500 exactly when no key is configured; otherwise the parsed body or {} is posted to the session-token URL with a bearer token, JSON content type and identity encoding |
| Backend.MissingKeyIgnoresBody | backend/app/main.py:101-107 | without a key, the body does not influence the outcome |
| Backend.SessionMediaType | backend/app/main.py:121 | application/json only when the content type is missing; an empty one is passed through |
| Backend.EmptyContentTypeDefaults | backend/app/main.py:121 | an empty content type stays empty for the token endpoint but becomes application/octet-stream for the proxy |
| StreamFramer.DigitRun | backend/app/stream_generator.py:6 | the longest run of digits at the start: all digits, followed by a non-digit or the end |
| StreamFramer.DigitRunOf | backend/app/stream_generator.py:6 | a run of digits followed by a non-digit is consumed whole |
| StreamFramer.MarkerAt | backend/app/stream_generator.py:6 | a match found at the start has a positive length within the text |
| StreamFramer.MarkerAtSound | backend/app/stream_generator.py:6 | what the matcher finds is a citation marker with two non-empty digit runs |
| StreamFramer.MarkerAtComplete | backend/app/stream_generator.py:6 | every citation marker at the start of a text is matched with its full length |
| StreamFramer.AfterColon | backend/app/stream_generator.py:6 | a match of the second number and "†source】" has a positive length within the text |
| StreamFramer.AfterFirst | backend/app/stream_generator.py:6 | a match of ":" and what follows has a positive length within the text |
| StreamFramer.AfterOpen | backend/app/stream_generator.py:6 | a match after the bracket has a positive length within the text |
| StreamFramer.AfterColonSound | backend/app/stream_generator.py:6 | what is matched after the colon is a non-empty digit run followed by "†source】" |
| StreamFramer.AfterFirstSound | backend/app/stream_generator.py:6 | what is matched after the first number is ":", a non-empty digit run and "†source】" |
| StreamFramer.AfterOpenSound | backend/app/stream_generator.py:6 | what is matched after the bracket is two non-empty digit runs around ":", then "†source】" |
| StreamFramer.AfterColonOf | backend/app/stream_generator.py:6 | digits, then text opening with "†", match exactly when that text begins with "†source】", consuming the digits and the tail |
| StreamFramer.AfterOpenOf | backend/app/stream_generator.py:6 | digits, then ":", match exactly when what follows the colon matches, and the digits are consumed whole |
| StreamFramer.MarkerAtOfOpen | backend/app/stream_generator.py:6 | at a bracket, the match is the bracket plus what follows it |
| StreamFramer.MarkerAtOfShape | backend/app/stream_generator.py:6 | bracket, digits, ":", digits and a tail opening with "†" match exactly when the tail begins with "†source】", with the full length |
| StreamFramer.StripCitations | backend/app/stream_generator.py:14 | stripping never lengthens the text |
| StreamFramer.StripRemovesMarker | backend/app/stream_generator.py:14 | a marker at the scanning position is removed whole |
| StreamFramer.StripKeepsOther | backend/app/stream_generator.py:14 | a character that does not begin a marker is kept |
| StreamFramer.StripWithoutOpenMark | backend/app/stream_generator.py:14 | text without an opening bracket is unchanged |
| StreamFramer.StripAsterisks | backend/app/stream_generator.py:14 | no asterisk remains and every other character that occurred still occurs |
| StreamFramer.StripAsterisksNone | backend/app/stream_generator.py:14 | text without asterisks is unchanged |
| StreamFramer.StripAsterisksAppend | backend/app/stream_generator.py:14 | asterisk removal works piece by piece |
| StreamFramer.Sanitise | backend/app/stream_generator.py:14 | a yielded item has no asterisk and is no longer than its part |
| StreamFramer.SanitiseSubsequence | backend/app/stream_generator.py:14 | a yielded item is its part with characters left out, the rest in order |
| StreamFramer.SubsequenceTrans | backend/app/stream_generator.py:14 | leaving out characters twice is leaving them out once |
| StreamFramer.StripCitationsSubsequence | backend/app/stream_generator.py:14 | citation stripping only leaves characters out |
| StreamFramer.StripAsterisksSubsequence | backend/app/stream_generator.py:14 | asterisk removal only leaves characters out |
| StreamFramer.RemovalCanFormMarker | backend/app/stream_generator.py:14 | removing a marker can bring a new marker together, so "no marker remains" does not hold |
| StreamFramer.NoMarkerBeforeBracket | backend/app/stream_generator.py:6 | no match starts one character before an opening bracket |
| StreamFramer.HiddenMarkerNoMatch | backend/app/stream_generator.py:6 | a marker with an asterisk before its closing bracket is not matched |
| StreamFramer.HiddenMarkerUntouched | backend/app/stream_generator.py:14 | such a marker passes citation stripping unchanged |
| StreamFramer.HiddenMarkerRevealed | backend/app/stream_generator.py:14 | removing its asterisk turns it into a citation marker |
| StreamFramer.AsteriskHidesMarker | backend/app/stream_generator.py:14 | an asterisk inside a marker hides it from the pattern, and removing the asterisk then lets the marker through |
| StreamFramer.SanitiseAll | backend/app/stream_generator.py:13-14 | one item per content part, each the sanitised part |
| StreamFramer.Yield | backend/app/stream_generator.py:12-14 | a delta event yields one item per content part, any other event none |
| StreamFramer.Frame | backend/app/stream_generator.py:11-14 | one item per content part of the delta events |
| StreamFramer.FrameIsSanitisedParts | backend/app/stream_generator.py:11-14 | the items are the delta events' parts, in order, each sanitised |
| StreamFramer.FrameAppend | backend/app/stream_generator.py:11 | events are framed one at a time |
| StreamFramer.OnlyDeltasYield | backend/app/stream_generator.py:12 | an event that is not a message delta yields nothing |
| StreamFramer.StreamGenerator | backend/app/stream_generator.py:8-19 | nothing raised exactly when the stream finished; 504 exactly on a timeout; any other exception raised as it is; one item per delta part, plus the end marker as the last item only when the stream finished |
| StreamFramer.ItemsAreCleanedParts | backend/app/stream_generator.py:12-14 | every item before the end marker is asterisk-free and drawn from its part |
| StreamFramer.EndMarkerOnce | backend/app/stream_generator.py:8-19 | when no part sanitises to the marker text, a finished stream carries exactly one end marker, as its last item, and a failed stream carries none and ends with the 504 on a timeout or with the exception itself otherwise |
| StreamFramer.ForgedEndMarker | backend/app/stream_generator.py:14-17 | a part that sanitises to the marker text gives a second end marker, ahead of the real one |
| StreamFramer.StarredEndMarker | backend/app/stream_generator.py:14 | "__END_OF_STREAM__*" is such a part |
| StreamFramer.SanitiseDropsTrailingStar | backend/app/stream_generator.py:14 | text without brackets and asterisks followed by one asterisk sanitises to itself |

## Left out

- Avatar SDK calls (createClient, streamToVideoElement, mute and unmute, createTalkMessageStream): these are foreign library calls. The speech sink is an "is active" flag plus the list of chunks pushed and the count of ended messages.
- Network I/O: the session-token fetch and its abort timer (frontend/src/main.ts:91-105); the OpenAI thread, message and run calls; the httpx calls and byte streaming in iter_response; the EventSource transport and the SSE wire format. Upstream answers are parameters instead.
- DOM work, scrolling, dropdown menus, export download, the AudioContext unlock, alerts and prompts, and the five-minute session timer: this is UI work and wall-clock timing. A prompt answer is a parameter. VoiceInput.Stopped drops the bubble reference without modelling the bubble's final DOM state: the trimmed text and the removed in-progress mark of main.ts:232-233, or an empty bubble still marked in progress after an empty dictation.
- Local-storage JSON: the name list and the saved selection are held decoded. The reserved keys "chatNames" and "currentChat" share one namespace with chat names in the source, and that clash is not modelled.
- CORS middleware and frontend/vite.config.ts: these are configuration.
- The ordering of header pairs is not modelled, and neither are Starlette's lower-cased request header names or httpx's merging of repeated response headers. Headers are a sequence of pairs into a dict in which the last value wins, as the comprehension is written.
- Backend.ProxyResponse: the content type is taken as a separate parameter rather than looked up in the upstream headers, because the client library's case-insensitive lookup is not part of this model.
- Text.ReplaceFirst: JavaScript expands "$&", "$$", "$`" and "$'" in a replacement string, but the model inserts the replacement as it is. The two agree for a replacement without "$", and the only one used here is "/anam/api".
- Backend.IsHopByHop: Python's str.lower is modelled as ASCII lower-casing. That is enough here. Starlette decodes request header names as latin-1, where only A-Z lower-case to ASCII letters, and response header names reach the proxy only as HTTP tokens, which are ASCII. A name such as "\u212Aeep-alive" (KELVIN SIGN), which str.lower would turn into "keep-alive", is not a name these headers can carry.
- Backend.PlanProxy: it requires one of the six methods the route is registered for, because other methods never reach the handler.
- Backend.AssistantRequest: the map of backend/app/models.py is used. The constants/models.py module that the import tries first is not part of this model. The thread id is a parameter standing for the thread OpenAI creates before the lookup can fail.
- Backend.SessionTokenCall: the parsed JSON body is its text, or none when it did not parse. JSON values themselves are not modelled.
- StreamFramer.DigitRun: Python's \d also matches non-ASCII decimal digits, but only 0-9 are modelled.
- StreamFramer.StreamGenerator: a timeout or another exception is taken to happen after the delivered events. Content parts without a text value are not modelled. How the 504 or another exception reaches the client once the event stream has started is framework behaviour that is not modelled.
- ReplyStream.Ended: the speech sink's calls are taken to succeed. If `await talk.endMessage()` rejects (frontend/src/main.ts:269), the source's handler stops before it drops the in-progress mark and writes the trimmed buffer. The model always does both, so EndOfStreamStep, EndWithoutPendingFrameIsFinal and ReplyTurn.OnMessage describe the case where the call resolves. The same holds for ReplyStream.Buffered: a throw from `streamMessageChunk` at line 274 would skip the append at line 275 and the frame scheduling, and the model does not capture that.
- Backend.AssistantRequest: the headers EventSourceResponse adds by default (for example X-Accel-Buffering) belong to the sse_starlette library and are not modelled; the model states only the three the handler passes.
- ReplyStream.ReplyTurn.constructor: the opening lines 249-251 (an empty transcript, or starting the avatar session) are taken as passed. The request URL of line 258 with encodeURIComponent is not modelled.
- AnamRoutes.PatchedFetchInput: fetch's second argument `init` and the Request's abort signal are passed through outside the model. Whether the browser accepts the rebuilt Request is not modelled.
- ChatList.ChatStore.Rename: the rename handler closes over the name the list item was created with. A second rename of the same item therefore uses the stale name; the method takes that name as a parameter. Renaming the visible label and closing the menu are not modelled.
- ChatList.ChatStore.Select: redrawing the history and starting the avatar session are not modelled.
