# AI mock interviewer: a verified model of its turn-taking core

The system is a voice mock-interview app. A React page records the candidate with an
energy-based voice detector and sends each utterance over a WebSocket. A FastAPI server
transcribes the utterance, asks an LLM for the interviewer's reply under a prompt chosen by
the interview phase, and scans the reply for an end token that moves the phase on. It then
streams synthesized speech back. This project models, in Dafny, the logic that decides
what happens at each step:

- `interview_socket.dfy`: the browser's session hook (`useInterviewSocket.js`). One
  class, `InterviewClient`, with one method per browser event. Each method is proved to
  perform a step function over the value `Client`, and the properties are lemmas about
  those step functions.
- `viseme_player.dfy`: the audio queue and lip-sync timer scheduler (`useVisemePlayer.js`),
  as a class `Player`.
- `main.dfy`: the server handlers (`main.py`) as a class `Server`, plus the
  skills split, the end-token scan (a loop proved against the function `Scan`), and the
  frames the server writes.
- `session.dfy`, `state_manager.dfy`, `prompt_factory.dfy`, `connection_manager.dfy`: the
  phase enum and session record, the session table and `advance_phase`, the phase-to-prompt
  selector, and the table of open sockets.
- `transcript.dfy`, `avatar.dfy`, `controls.dfy`, `setup_form.dfy`, `ai_status.dfy`,
  `app.dfy`: the small UI decisions. These are the transcript bubbles, the morph-target
  update done in place on the influence arrays, the two buttons, the setup form's guard, the
  status banner, and the page's flags and screens.
- `common.dfy`, `text.dfy`: shared definitions. These are `Option`, bytes, list
  concatenation and mapping, and the string operations both sides use (`strip`/`trim`,
  `split`, `join`, `in`, `replace`, `startsWith`, `indexOf`).

Outside calls (the LLM, speech-to-text, text-to-speech, the resume parser) are parameters.
Browser events (animation frames, timers, recorder and socket callbacks, the decoder's
callbacks) are method calls, and what they report is passed in.

Four behaviours of the code that the model keeps:

- A decode failure does not move on to the next queued chunk. It only lifts the
  `isPlaying` guard.
- Inbound audio frames in the session hook are not queued. Each one replaces what the
  audio element was playing.
- Viseme cues are not applied one at a time with a correction factor. Every cue gets its
  own timer at once, and `currentViseme` never returns to 'sil'.
- A setup answer other than 'success' sets 'Idle' and closes the socket, and nothing
  retries. Because the socket reference is never cleared, a later start never opens a new
  socket (`InterviewSocket.NoReconnect`, `App.FormDisabledAfterStart`).

## Model

| member | source | states |
|---|---|---|
| `InterviewSession.ValueRoundTrip` | backend/models/session.py:5-13 | Each phase's string value maps back to that phase, and only phase values map to a phase. |
| `InterviewSession.ValueInjective` | backend/models/session.py:6-13 | Distinct phases have distinct string values. |
| `InterviewSession.Index` | backend/models/session.py:5-13 | A phase's position in declaration order is a valid index of `list(InterviewPhase)` that holds that phase. |
| `InterviewSession.AllPhasesDistinct` | backend/models/session.py:5-13 | There are exactly eight phases, each listed once, and `Index` inverts the list. |
| `InterviewSession.NewSession` | backend/models/session.py:15-23 | A new session is at INTRODUCTION, has no resume and no role, and has its own empty skills list and chat memory. |
| `StateManager.NextPhaseSteps` | backend/interview_flow/state_manager.py:30-37 | Stepping moves exactly one place forward in declaration order. FEEDBACK is the only phase it keeps. |
| `StateManager.NextPhaseReachesFeedback` | backend/interview_flow/state_manager.py:26-37 | Enough repeated `advance_phase` calls reach FEEDBACK from any phase, and it stays there. |
| `StateManager.InitialMessageTotal` | backend/interview_flow/state_manager.py:13-24 | The greeting is non-empty exactly for the keys that are phase values. Other keys get "". |
| `StateManager.SessionStore.constructor` | backend/interview_flow/state_manager.py:4 | The session table starts empty. |
| `StateManager.SessionStore.CreateSession` | backend/interview_flow/state_manager.py:6-8 | Stores a fresh session under the id, replacing any earlier one, and returns it. Other entries are kept. |
| `StateManager.SessionStore.GetSession` | backend/interview_flow/state_manager.py:10-11 | Returns the stored session exactly when the id is present, else None, and changes nothing. |
| `StateManager.SessionStore.AdvancePhase` | backend/interview_flow/state_manager.py:26-37 | Sets that client's phase to the next phase and returns it, keeping FEEDBACK. Only that entry changes. An unknown client changes nothing. |
| `Connections.ConnectionManager.constructor` | backend/connection_manager.py:4-5 | The manager starts with no connections and nothing written. |
| `Connections.ConnectionManager.Connect` | backend/connection_manager.py:7-9 | Records the socket under the id, replacing an earlier one. Every other id keeps its entry. |
| `Connections.ConnectionManager.Disconnect` | backend/connection_manager.py:11-13 | Removes the id if present and is a no-op otherwise, so it is idempotent. Other ids keep their entries. |
| `Connections.ConnectionManager.SendText` | backend/connection_manager.py:15-17 | Appends exactly one text frame, addressed to that client's own socket, when the id is known, and nothing otherwise (`Forward`). The table is unchanged. |
| `Connections.ConnectionManager.SendBytes` | backend/connection_manager.py:19-21 | Appends exactly one binary frame, addressed to that client's own socket, when the id is known, and nothing otherwise (`Forward`). The table is unchanged. |
| `PromptFactory.Render` | backend/interview_flow/prompt_factory.py:12-59 | Every rendering starts with the persona text. The three pre-interview phases get exactly that text. |
| `PromptFactory.RenderIsBaseOnlyBeforeInterview` | backend/interview_flow/prompt_factory.py:12-59 | A rendering equals the persona text if and only if the phase is one of the three pre-interview phases. |
| `PromptFactory.PromptStartsWithBase` | backend/interview_flow/prompt_factory.py:5-10 | Every prompt begins with `base_prompt`, and equals it exactly for INTRODUCTION, AWAITING_SKILLS and AWAITING_ROLE. |
| `PromptFactory.RenderEmbedsResume` | backend/interview_flow/prompt_factory.py:14-24 | A BEHAVIORAL rendering contains the resume text. Two BEHAVIORAL renderings are equal if and only if their resume texts are equal. |
| `PromptFactory.BehavioralPromptEmbedsResume` | backend/interview_flow/prompt_factory.py:14-24 | The BEHAVIORAL prompt contains the resume text (`None` rendered as "None"), and the resume text can be read back from it (both directions). |
| `PromptFactory.BehavioralPromptCarriesResume` | backend/interview_flow/prompt_factory.py:20-23 | The BEHAVIORAL prompt contains the resume text. |
| `PromptFactory.SameResumeSamePrompt` | backend/interview_flow/prompt_factory.py:14-24 | Two BEHAVIORAL sessions with the same resume text get the same prompt. |
| `PromptFactory.SamePromptSameResume` | backend/interview_flow/prompt_factory.py:14-24 | Two BEHAVIORAL sessions with the same prompt have the same resume text. |
| `PromptFactory.RenderEmbedsRoleAndSkills` | backend/interview_flow/prompt_factory.py:26-27 | A TECHNICAL rendering contains the role, then the skills lead, then the skills joined by ", ", next to each other. |
| `PromptFactory.TechnicalPromptEmbedsRoleAndSkills` | backend/interview_flow/prompt_factory.py:26-27 | The TECHNICAL prompt contains the target role followed by the skills joined by ", " in list order. |
| `PromptFactory.PromptDependsOnlyOnPhaseFields` | backend/interview_flow/prompt_factory.py:12-59 | For the same phase, the prompt changes only through the resume (BEHAVIORAL) or the role and skills (TECHNICAL). CODING, CONCLUSION and FEEDBACK are constant, and chat memory never enters. |
| `PromptFactory.RenderNamesEndToken` | backend/interview_flow/prompt_factory.py:18-48 | A rendering of BEHAVIORAL, TECHNICAL, CODING or CONCLUSION contains that phase's end token. |
| `PromptFactory.PromptNamesEndToken` | backend/interview_flow/prompt_factory.py:18-48 | The BEHAVIORAL, TECHNICAL, CODING and CONCLUSION prompts each name their own end token. |
| `PromptFactory.RenderWithoutTokenNamesNone` | backend/interview_flow/prompt_factory.py:50-59 | If the persona and FEEDBACK texts hold no '[', a FEEDBACK or pre-interview rendering contains no bracketed token. |
| `PromptFactory.PromptWithoutTokenNamesNone` | backend/interview_flow/prompt_factory.py:50-59 | The FEEDBACK prompt (and the pre-interview ones) contain no bracketed token at all, so they name no end token. |
| `PromptFactory.UnbracketedTexts` | backend/interview_flow/prompt_factory.py:5-10 | Neither `base_prompt` nor the FEEDBACK text contains '['. |
| `Text.Split` | backend/main.py:67 | `split(',')` gives one piece more than there are commas, no piece holds a comma, and joining the pieces with ',' gives back the input. |
| `Text.IndexOf` | frontend/src/components/Transcript.jsx:18 | `indexOf` gives -1 exactly when the character is absent. Otherwise it gives the position of its first occurrence. |
| `Text.RemoveAllAbsent` | backend/main.py:104 | `replace(token, "")` leaves a text that does not contain the token exactly as it was. |
| `Text.RemoveAllCanReassemble` | backend/main.py:104 | The result of `replace(token, "")` can still contain the token: cutting "[x]" out of "[[x]x]" leaves "[x]". |
| `Text.StripEmptyIffAllSpace` | frontend/src/components/SetupForm.jsx:17 | A text strips to "" if and only if it is all whitespace. |
| `Text.StripIdempotent` | backend/main.py:67 | Stripping twice is stripping once. |
| `InterviewServer.SplitSkills` | backend/main.py:67 | The skills list has one entry per comma-separated piece (count of commas + 1), empty pieces included. |
| `InterviewServer.SplitSkillsClean` | backend/main.py:67 | Every skill is comma-free and has no whitespace at either end. |
| `InterviewServer.SplitSkillsJoinRoundTrip` | backend/main.py:67 | A non-empty list of clean skills, joined by ", " as the TECHNICAL prompt does, splits back to the same list. |
| `InterviewServer.FirstEnd` | backend/main.py:102-103 | Finds the first table entry whose token occurs in the reply. No earlier entry's token occurs, and None means no token occurs. |
| `InterviewServer.ScanEndTokens` | backend/main.py:101-107 | The scan loop yields exactly `Scan`: with no token the reply is kept and nothing moves; otherwise the first token in table order wins, its occurrences are cut out left to right as `replace` does, the rest is stripped, and its phase and message are chosen. |
| `InterviewServer.FirstEndIs` | backend/main.py:102-107 | When entry k is the first whose token occurs, the scan picks entry k. |
| `InterviewServer.FirstEndNone` | backend/main.py:102-107 | When no token occurs, the scan picks nothing. |
| `InterviewServer.ScanWithoutToken` | backend/main.py:101-107 | A reply without any end token is spoken unchanged, and the phase stays. |
| `InterviewServer.ScanBehavioralWins` | backend/main.py:94-107 | [END_BEHAVIORAL] wins over every other token. Only its occurrences are removed, and the phase becomes TECHNICAL. |
| `InterviewServer.NamedTokenAdvances` | backend/main.py:94-107 | The token a phase's prompt names leads to the next phase in declaration order, as `advance_phase` would. |
| `InterviewServer.ScanBareToken` | backend/main.py:101-107 | A reply that is exactly one of the four tokens leaves no text, moves to that entry's phase and picks that entry's line. No earlier token occurs inside a later one. |
| `InterviewServer.AfterScan` | backend/main.py:105 | When the scan chose a phase, only the client's phase changes: its other fields and every other client's session stay. When it chose none, the table is unchanged. |
| `InterviewServer.BareTokenReplySpeaksOnlyTransition` | backend/main.py:92-113 | Each of the four end tokens sent alone as the reply is shown raw in the transcript and not spoken. Only its own transition line is spoken. |
| `InterviewServer.NothingLeftSpeaksOnlyTransition` | backend/main.py:109-113 | For every reply whose cleaned text is empty: after the "Alex: " line, only the transition line is spoken when a token was found, and when none was, the reply was empty and nothing is spoken. |
| `InterviewServer.SetUpSession` | backend/main.py:63-70 | Setup stores the resume text and the split skills and sets BEHAVIORAL. Role and chat memory are kept. |
| `InterviewServer.FirstQuestionPromptCarriesResume` | backend/main.py:70-75 | The first question is asked under a prompt that contains the resume just parsed. |
| `InterviewServer.FirstQuestionPromptNamesEndToken` | backend/main.py:70-75 | The first question's prompt names [END_BEHAVIORAL]. |
| `InterviewServer.Server.constructor` | backend/main.py:9-12 | The server starts with no sessions, no connections and nothing written, and uses `get_system_prompt`. |
| `InterviewServer.Server.Speak` | backend/main.py:34-40 | The chunk loop appends one binary frame per TTS chunk, in stream order, each addressed to the client's own socket, or nothing once the client is gone (`SpeechFrames`). The table is unchanged. |
| `InterviewServer.Server.SetupInterview` | backend/main.py:47-83 | Unknown client: "Invalid session" and no change. Parse failure: error and no change. Otherwise the resume, skills and BEHAVIORAL are stored first. An LLM failure is then reported, and a first question is spoken with "success" returned. |
| `InterviewServer.Server.HandleLlmResponse` | backend/main.py:86-113 | The LLM is asked under the session's current prompt. On success the phase follows the scan and the frames are written as `ReplyFrames`. On failure nothing changes. |
| `InterviewServer.Server.DeliverReply` | backend/main.py:92-113 | Writes the raw reply as an "Alex: " transcript line, then the cleaned reply's audio if any text is left, then the transition line's audio. The phase follows the scan. |
| `InterviewServer.Server.SetPhase` | backend/main.py:105 | The chosen phase replaces the client's phase, and the rest of the table is unchanged. |
| `InterviewServer.Server.SpeakIfAny` | backend/main.py:109-113 | Empty text writes nothing. Other text writes its speech frames as `Speak` does (`SpokenFrames`). The table is unchanged. |
| `InterviewServer.Server.OpenSocket` | backend/main.py:116-118 | The socket is recorded and a fresh session replaces any earlier one. |
| `InterviewServer.Server.ReceiveUtterance` | backend/main.py:120-143 | A speech-to-text failure disconnects the client and changes nothing else. Otherwise a "You: " line goes out first. Blank text calls no LLM. Other text asks the LLM under the session's prompt. A reply sets the phase by `AfterScan` and writes `ReplyFrames` after the "You: " line. An LLM failure changes no session, writes nothing more and disconnects the client. |
| `InterviewServer.Server.CloseSocket` | backend/main.py:137-138 | A disconnect drops the connection and keeps the session. |
| `InterviewSocket.Abs` | frontend/src/hooks/useInterviewSocket.js:53 | `Math.abs`. |
| `InterviewSocket.LoudBand` | frontend/src/hooks/useInterviewSocket.js:7 | With the threshold at 132, a sample is loud if and only if it lies below 124 or above 132. |
| `InterviewSocket.HasVoiceBand` | frontend/src/hooks/useInterviewSocket.js:50-57 | A frame holds voice if and only if some sample lies outside 124..132. |
| `InterviewSocket.ScanForVoice` | frontend/src/hooks/useInterviewSocket.js:50-57 | The sample loop, which stops at the first loud sample, answers exactly whether the frame holds voice. |
| `InterviewSocket.DetectVoiceCases` | frontend/src/hooks/useInterviewSocket.js:59-79 | A loud frame marks speech and leaves no timer pending. A quiet frame after speech arms one timer 2000 ms on, and none was pending before. A quiet frame in silence changes nothing. The next frame is requested. |
| `InterviewSocket.DetectVoiceStops` | frontend/src/hooks/useInterviewSocket.js:41-44 | Without an analyser or a running recording, the loop ends and nothing else changes. |
| `InterviewSocket.ApplyKeepsTimerInvariant` | frontend/src/hooks/useInterviewSocket.js:61-75 | Every event keeps the invariant that a pending silence timer implies no speech. |
| `InterviewSocket.RunKeepsTimerInvariant` | frontend/src/hooks/useInterviewSocket.js:61-75 | Any run of events keeps that invariant. |
| `InterviewSocket.QuietFramesNeverArmTimer` | frontend/src/hooks/useInterviewSocket.js:67-75 | Quiet frames starting in silence with no timer pending never arm one and never mark speech. |
| `InterviewSocket.SilenceStopsAfterThreshold` | frontend/src/hooks/useInterviewSocket.js:70-75 | The first quiet frame after speech, at time t, arms a timer that leaves the client unchanged before t + 2000 ms and stops the recording ('Processing...', no timer pending) from then on. |
| `InterviewSocket.SilentRecordingNeverStops` | frontend/src/hooks/useInterviewSocket.js:40-91 | From a running recording with no speech and no timer pending, any run of events without a voiced frame or a new `startInterview` leaves the recording running, silent and with no timer pending. A recording in which nobody speaks never auto-stops. |
| `InterviewSocket.RecorderGuards` | frontend/src/hooks/useInterviewSocket.js:27-37 | Start acts only on an inactive recorder: it empties the buffer, sets 'Recording...' and starts the loop. Stop acts only on a recording: it sets 'Processing...' and cancels the loop. Otherwise both are no-ops. |
| `InterviewSocket.RecordedChunksAreSent` | frontend/src/hooks/useInterviewSocket.js:169-183 | The non-empty chunks recorded after a start are sent on stop as one blob holding their bytes in order, and the buffer ends empty. |
| `InterviewSocket.BufferAppends` | frontend/src/hooks/useInterviewSocket.js:169-171 | Buffering non-empty chunks appends them in order and touches nothing else. |
| `InterviewSocket.RecorderStopSends` | frontend/src/hooks/useInterviewSocket.js:173-183 | One blob is sent exactly when something was buffered and the socket is open. The buffer is emptied either way. Only an empty buffer sets 'Listening...'. |
| `InterviewSocket.NoReconnect` | frontend/src/hooks/useInterviewSocket.js:119 | Once a socket exists, `connect` is a no-op, even after close. Close shows FINISHED. |
| `InterviewSocket.TextMessageAppends` | frontend/src/hooks/useInterviewSocket.js:142-148 | A transcript message appends its data at the end. Other types and unparsable text are ignored. |
| `InterviewSocket.SetupResultCases` | frontend/src/hooks/useInterviewSocket.js:104-115 | 'success' shows INTERVIEW and keeps the status. Other answers set 'Idle' and close the socket. An exception sets 'Error'. |
| `InterviewSocket.BinaryThenEndedRecords` | frontend/src/hooks/useInterviewSocket.js:134-141 | Reply audio replaces the player's source, and its end starts a recording. |
| `InterviewSocket.InterviewClient.constructor` | frontend/src/hooks/useInterviewSocket.js:10-25 | The hook starts at SETUP/'Idle' with no socket, no recorder and nothing buffered. |
| `InterviewSocket.InterviewClient.DetectVoice` | frontend/src/hooks/useInterviewSocket.js:40-80 | Performs `DetectVoiceStep` and keeps the timer invariant. |
| `InterviewSocket.InterviewClient.StopRecordingAndSend` | frontend/src/hooks/useInterviewSocket.js:27-37 | Performs `StopStep` and keeps the timer invariant. |
| `InterviewSocket.InterviewClient.SilenceTimeout` | frontend/src/hooks/useInterviewSocket.js:74 | Fires only when a timer is pending and its deadline has come. The timer is then no longer pending, and the recording stops as `stopRecordingAndSend` does. The method performs `SilenceTimeoutStep`, which is the identity with no timer pending or before the deadline. |
| `InterviewSocket.InterviewClient.StartRecording` | frontend/src/hooks/useInterviewSocket.js:82-91 | Performs `StartStep` and keeps the timer invariant. |
| `InterviewSocket.InterviewClient.OnDataAvailable` | frontend/src/hooks/useInterviewSocket.js:169-171 | Performs `DataAvailableStep`: only non-empty chunks are buffered. |
| `InterviewSocket.InterviewClient.OnRecorderStop` | frontend/src/hooks/useInterviewSocket.js:173-183 | Performs `RecorderStopStep`. |
| `InterviewSocket.InterviewClient.Connect` | frontend/src/hooks/useInterviewSocket.js:118-123 | Performs `ConnectStep`. |
| `InterviewSocket.InterviewClient.OnSocketOpen` | frontend/src/hooks/useInterviewSocket.js:125-127 | Performs `SocketOpenStep`. |
| `InterviewSocket.InterviewClient.OnSetupResult` | frontend/src/hooks/useInterviewSocket.js:104-115 | Performs `SetupResultStep`. |
| `InterviewSocket.InterviewClient.OnSocketClose` | frontend/src/hooks/useInterviewSocket.js:130 | Performs `SocketCloseStep`. |
| `InterviewSocket.InterviewClient.OnBinaryMessage` | frontend/src/hooks/useInterviewSocket.js:134-141 | Performs `BinaryMessageStep`. |
| `InterviewSocket.InterviewClient.OnTextMessage` | frontend/src/hooks/useInterviewSocket.js:142-148 | Performs `TextMessageStep`. |
| `InterviewSocket.InterviewClient.OnAudioEnded` | frontend/src/hooks/useInterviewSocket.js:139-141 | Performs `AudioEndedStep`. |
| `InterviewSocket.InterviewClient.StartInterview` | frontend/src/hooks/useInterviewSocket.js:153-193 | Performs `StartInterviewStep`: 'Setting up...' and then either connect or 'Error: Mic required'. |
| `VisemePlayer.StartTime` | frontend/src/hooks/useVisemePlayer.js:34-36 | A batch starts at the later of the scheduled end and now: no earlier than either, and equal to one of them. |
| `VisemePlayer.CueDelay` | frontend/src/hooks/useVisemePlayer.js:64-73 | The delay is never negative. It is the raw offset in ms, or 0 when the offset is negative. |
| `VisemePlayer.CueDelayMonotone` | frontend/src/hooks/useVisemePlayer.js:69-73 | A later cue never gets a shorter delay. |
| `VisemePlayer.CueDelayAfterScheduledAudio` | frontend/src/hooks/useVisemePlayer.js:64-73 | A cue at a non-negative time is not clamped and fires no earlier than the scheduled audio ends. |
| `VisemePlayer.CueTimers` | frontend/src/hooks/useVisemePlayer.js:69-74 | One timer per cue, in list order, carrying the cue's viseme. Each delay is exactly `CueDelay` of the cue's time: max(0, (max(playbackTime, now) - now + time) * 1000), never negative. |
| `VisemePlayer.SequentialSnoc` | frontend/src/hooks/useVisemePlayer.js:34-41 | A segment started at or after the playback time keeps all scheduled audio non-overlapping. |
| `VisemePlayer.Player.constructor` | frontend/src/hooks/useVisemePlayer.js:8-11 | The player starts at 'sil', with an empty queue, not playing, and playback time 0. |
| `VisemePlayer.Player.ProcessAudioQueue` | frontend/src/hooks/useVisemePlayer.js:14-23 | A no-op while playing or when the queue is empty. Otherwise it sets `isPlaying` and drains the whole queue, joined in arrival order, to the decoder. |
| `VisemePlayer.Player.AddAudioChunk` | frontend/src/hooks/useVisemePlayer.js:57-60 | The chunk joins the end of the queue, and the queue is processed. |
| `VisemePlayer.Player.DecodeSucceeded` | frontend/src/hooks/useVisemePlayer.js:29-42 | The batch starts at `StartTime`. The playback time becomes start + duration, never decreasing and never before now. The scheduled audio stays non-overlapping. |
| `VisemePlayer.Player.DecodeFailed` | frontend/src/hooks/useVisemePlayer.js:49-52 | The guard is lifted, the batch is lost, and the queue is not processed again. |
| `VisemePlayer.Player.SegmentEnded` | frontend/src/hooks/useVisemePlayer.js:43-47 | The guard is lifted and the queue is processed again, so chunks that arrived during playback play next. |
| `VisemePlayer.Player.HandleViseme` | frontend/src/hooks/useVisemePlayer.js:62-75 | Appends exactly `CueTimers` for the cues and only reads the playback time. |
| `VisemePlayer.Player.CueFires` | frontend/src/hooks/useVisemePlayer.js:71-72 | A firing timer sets `currentViseme` to its viseme. Nothing else changes it. |
| `Transcript.AfterFirstColon` | frontend/src/components/Transcript.jsx:18 | The text after the first colon, with no colon before it. A line without a colon is kept whole. |
| `Transcript.BubbleOf` | frontend/src/components/Transcript.jsx:14-18 | A bubble is the user's if and only if the line starts with "You:", and then it shows the rest of the line after that prefix, stripped. A line without a colon shows whole, stripped. |
| `Transcript.ServerTranscriptShown` | frontend/src/components/Transcript.jsx:13-18 | A transcript the server wrote ("You: " + utterance, "Alex: " + reply) shows one bubble per line, in order. Each utterance is on the user's side and each reply on the interviewer's, with exactly the text sent, stripped, whatever colons or prefixes it holds. |
| `Transcript.PrefixedLine` | frontend/src/components/Transcript.jsx:18 | After a colon-free prefix and a colon, all that follows is kept, later colons included. |
| `Transcript.UserLineBubble` | frontend/src/components/Transcript.jsx:14-18 | The server's "You: " + t line shows on the user's side with t stripped. |
| `Transcript.InterviewerLineBubble` | frontend/src/components/Transcript.jsx:14-18 | The server's "Alex: " + r line shows on the interviewer's side with r stripped. |
| `Avatar.Name` | frontend/src/components/AIAvatar3D.jsx:7-19 | Every morph-target name is non-empty, so every table hit passes the truthiness test. |
| `Avatar.NamesDistinct` | frontend/src/components/AIAvatar3D.jsx:7-19 | The seven morph-target names are distinct. |
| `Avatar.SilenceClosesMouth` | frontend/src/components/AIAvatar3D.jsx:8 | 'sil' maps to mouthClose. |
| `Avatar.TargetIndex` | frontend/src/components/AIAvatar3D.jsx:39-42 | A slot is chosen exactly when the viseme is in the table and its target is in the dictionary. The slot is one the dictionary names. |
| `Avatar.OnlyTargetOn` | frontend/src/components/AIAvatar3D.jsx:31-46 | Among the named slots, exactly the target's slot is 1 and all others are 0. |
| `Avatar.UnknownVisemeNeutral` | frontend/src/components/AIAvatar3D.jsx:39-46 | An unknown viseme or a missing target leaves every named slot at 0. |
| `Avatar.HistoryFree` | frontend/src/components/AIAvatar3D.jsx:31-46 | The result on the named slots does not depend on earlier influences, and running the effect twice is running it once. |
| `Avatar.UnnamedSlotsKept` | frontend/src/components/AIAvatar3D.jsx:32-35 | Slots the dictionary does not name are untouched. |
| `Avatar.SetAfterReset` | frontend/src/components/AIAvatar3D.jsx:31-46 | Reset and then set gives `NewInfluences`. |
| `Avatar.ResetInfluences` | frontend/src/components/AIAvatar3D.jsx:31-36 | Every slot the dictionary names is zeroed in both arrays, whatever the key order. |
| `Avatar.ShowViseme` | frontend/src/components/AIAvatar3D.jsx:25-48 | A no-op unless the head, its dictionary and the teeth all exist. Otherwise both arrays become `NewInfluences`, using the head's dictionary for the teeth too. |
| `Controls.StartDisabled` | frontend/src/components/Controls.jsx:4-10 | Start is enabled if and only if the status is 'Idle', 'Finished' or 'Error'. |
| `Controls.EndDisabled` | frontend/src/components/Controls.jsx:4-17 | End is disabled if and only if the status is 'Idle', 'Finished', 'Error' or 'Connected'. Whenever End is enabled Start is disabled, so the two are never both enabled, and on 'Connected' neither is. |
| `Controls.OtherStatusesActive` | frontend/src/components/Controls.jsx:4 | Any other status counts as active, so only End is enabled. |
| `SetupForm.CanSubmitIffNotBlank` | frontend/src/components/SetupForm.jsx:17 | The guard holds if and only if a file is set and the skills are not all whitespace. |
| `SetupForm.SubmitDisabled` | frontend/src/components/SetupForm.jsx:65 | The button is enabled if and only if the form is not busy, a file is chosen and the skills hold more than whitespace. An enabled button therefore always satisfies the submit guard. |
| `SetupForm.Label` | frontend/src/components/SetupForm.jsx:68 | The label is 'Starting...' if and only if the form is disabled. |
| `SetupForm.Form.constructor` | frontend/src/components/SetupForm.jsx:4-5 | The form starts with no file and empty skills. |
| `SetupForm.Form.HandleFileChange` | frontend/src/components/SetupForm.jsx:8-13 | The first file replaces the chosen one. An empty list keeps it. |
| `SetupForm.Form.SetSkills` | frontend/src/components/SetupForm.jsx:58 | The skills become the typed value. |
| `SetupForm.Form.HandleSubmit` | frontend/src/components/SetupForm.jsx:15-22 | The default is always prevented. `onConfirm` gets the file and the untrimmed skills exactly when the guard holds. Otherwise the user is alerted. |
| `AIStatus.View` | frontend/src/components/AIStatus.jsx:30-55 | No icon exactly for 'Initializing...'. The gray default colour exactly for statuses other than Thinking, Speaking and Recording. |
| `AIStatus.IconNamesStatus` | frontend/src/components/AIStatus.jsx:32-51 | Each non-default icon belongs to one status only. |
| `AIStatus.OtherStatusesInitializing` | frontend/src/components/AIStatus.jsx:52-55 | Every other status shows 'Initializing...' with no icon, in gray. |
| `App.Flags` | frontend/src/App.jsx:11-14 | At most one animation flag is on for any status. Thinking is on for 'Thinking...' or 'Processing...', speaking for 'Speaking...', recording for 'Recording...'. |
| `App.Screens` | frontend/src/App.jsx:45-77 | Never two screens at once. Exactly one for SETUP, INTERVIEW and FINISHED, none for anything else, and each screen shows only for its own state. |
| `App.StartsOnSetup` | frontend/src/App.jsx:45-51 | The page opens on the setup screen with the form enabled. |
| `App.FormDisabledAfterStart` | frontend/src/App.jsx:51 | After a start with the microphone granted, the form stays disabled exactly when a socket already exists. The socket is then the old one and no audio is sent, so no new `onopen` and no new setup request can follow. |
| `App.CloseFinishes` | frontend/src/App.jsx:77 | A socket close always lands on the finished screen. |

## Left out

- Browser media and network plumbing (`getUserMedia`, AudioContext and AnalyserNode, MediaRecorder, WebSocket, `fetch` and FormData, the audio element, object URLs, `requestAnimationFrame`, `setTimeout`). Their callbacks are methods, and what they report is a parameter.
- Audio decoding. It is an event: success with a non-negative duration, or failure. Times are Dafny `real` seconds, so floating-point rounding is not modelled.
- The LLM chain, speech-to-text, text-to-speech and the resume parser. They are parameters. File writes, `os.remove`, CORS and routing are not modelled. `backend/prompts.py` holds only unused constant text and is not part of this model.
- `langchain_chain.py` only reads the chat memory and never saves to it. In the model the memory is passed to the LLM and never changes.
- Rendering (JSX layout, CSS, icons, the video feed, the file picker, Canvas and GLTF loading).
- Async interleaving. Events are handled one at a time in arrival order, and the setup POST does not race the WebSocket loop.
- The viseme branch of `speak` is not modelled. It is unreachable, because the TTS stream yields only audio, and it calls `send_json`, which `ConnectionManager` lacks.
- The hook ignores 'viseme' text frames, and `useVisemePlayer` is not wired into the page. The two hooks are modelled separately.
- Text.Strip: removes only space, tab, line feed, vertical tab, form feed and carriage return. Python's `strip` (backend/main.py:67, 104, 134) also removes the ASCII separators 0x1C to 0x1F, 0x85 and Unicode whitespace. A Python text made only of those separators is blank to the server but not to the model.
- Transcript.BubbleOf: uses the same `Strip` for JavaScript's `trim`, which also removes 0xA0, 0xFEFF and Unicode space separators but keeps 0x1C to 0x1F. The same holds for SetupForm.SubmitDisabled and SetupForm.CanSubmitIffNotBlank.
- Avatar.ShowViseme: requires every slot the dictionary names to lie inside both arrays. JavaScript would grow the array on an out-of-range write.
- Avatar.VisemeToMorphTarget: lookups of inherited object keys such as 'constructor' are not modelled.
- InterviewServer.Server.HandleLlmResponse: requires the session and the connection to exist. The source raises there otherwise, and that path is not modelled.
- InterviewServer.Server.ReceiveUtterance: requires the session and the connection to exist, as `websocket_endpoint` creates them before the loop.
- InterviewServer.Server.SetupInterview: the prompt goes through the field `systemPrompt`, which the constructor sets to `GetSystemPrompt`. The properties of the prompt are proved about `GetSystemPrompt` itself.
- InterviewSocket.InterviewClient.SilenceTimeout: the firing time is a parameter that only has to reach the deadline, so the timer may fire any time after it. Browser timer lateness is not modelled.
- VisemePlayer.Player.CueFires: any pending timer may fire next, not only the one with the smallest delay. Every firing order the browser can produce is allowed, and so are some it cannot produce.
- InterviewSocket.InterviewClient.StartInterview: any failure during microphone or recorder setup is the single flag `micGranted`.
