/** The server's interview logic (backend/main.py): the setup request that
    stores the resume and skills and asks the first question, the end-token
    scan that rewrites the LLM's reply and moves the phase on, and the
    WebSocket loop that turns each received utterance into transcript lines
    and spoken audio.

    Outside calls are parameters: the resume parser's result, the speech-
    to-text result, the LLM chain (a function of system prompt, chat memory
    and input) and the TTS stream (a function from text to audio chunks).
    A call that raises is `Raised(message)`. */
module InterviewServer {
  import opened Common
  import opened Text
  import opened InterviewSession
  import opened StateManager
  import opened PromptFactory
  import opened Connections

  /** The result of an outside call: its value, or the text of the
      exception it raised. */
  datatype Call<T> = Returned(value: T) | Raised(error: string)

  /** The LLM chain: system prompt, chat history and human input in, reply
      out (or an exception). */
  type Llm = (string, seq<string>, string) -> Call<string>

  /** The TTS stream: the audio chunks it yields for a text. */
  type Tts = string -> seq<seq<byte>>

  // ---------------------------------------------------------------------
  // Skills

  /** Every piece stripped, in order. */
  function StripAll(pieces: seq<string>): seq<string>
  {
    Map(Strip, pieces)
  }

  lemma StripAllCons(p: string, pieces: seq<string>)
    ensures StripAll([p] + pieces) == [Strip(p)] + StripAll(pieces)
  {
    MapCons(Strip, p, pieces);
  }

  /** `[skill.strip() for skill in skills.split(',')]`: one entry per
      comma-separated piece, empty pieces included. */
  function SplitSkills(skills: string): (r: seq<string>)
    ensures |r| == Count(skills, ',') + 1
  {
    StripAll(Split(skills, ','))
  }

  /** Every entry `SplitSkills` yields is comma-free and has no whitespace
      at either end. */
  lemma SplitSkillsClean(skills: string)
    ensures forall i :: 0 <= i < |SplitSkills(skills)| ==> CleanSkill(SplitSkills(skills)[i])
  {
    var pieces := Split(skills, ',');
    forall i | 0 <= i < |pieces| ensures CleanSkill(SplitSkills(skills)[i]) {
      StripKeepsOut(pieces[i], ',');
      StripIdempotent(pieces[i]);
    }
  }

  /** Stripping adds no character. */
  lemma StripKeepsOut(s: string, c: char)
    requires c !in s
    ensures c !in Strip(s)
  {
    var t := TrimStart(s);
    NotInSlice(c, s, |s| - |t|, |s|);
    NotInSlice(c, t, 0, |TrimEnd(t)|);
  }

  /** A space in front of the text only changes the first piece, and not
      once it is stripped. */
  lemma SplitLeadingSpaceStripped(x: string)
    ensures StripAll(Split([' '] + x, ',')) == StripAll(Split(x, ','))
  {
    var px := Split(x, ',');
    SplitConsOther(' ', x, ',');
    StripLeadingSpace(' ', px[0]);
    MapFirstSame(Strip, Split([' '] + x, ','), px);
  }

  /** Skills that are already trimmed and comma-free survive a trip through
      the TECHNICAL prompt's `', '.join` and back through the split. */
  lemma {:induction false} SplitSkillsJoinRoundTrip(skills: seq<string>)
    requires skills != []
    requires forall i :: 0 <= i < |skills| ==> CleanSkill(skills[i])
    ensures SplitSkills(Join(skills, ", ")) == skills
  {
    AllCleanFromEach(skills);
    SplitSkillsJoinRoundTripRec(skills);
  }

  lemma {:induction false} SplitSkillsJoinRoundTripRec(skills: seq<string>)
    requires skills != [] && AllClean(skills)
    ensures SplitSkills(Join(skills, ", ")) == skills
  {
    if |skills| == 1 {
      SplitSkillsSingle(skills, skills[0]);
    } else {
      AllCleanTail(skills);
      HeadTail(skills);
      SplitSkillsJoinRoundTripRec(skills[1..]);
      SplitSkillsJoinStep(skills, skills[0], skills[1..]);
    }
  }

  lemma AllCleanTail(skills: seq<string>)
    requires |skills| > 1 && AllClean(skills)
    ensures CleanSkill(skills[0]) && skills[1..] != [] && AllClean(skills[1..])
  {
  }

  lemma SplitSkillsSingle(skills: seq<string>, skill: string)
    requires skills == [skill] && CleanSkill(skill)
    ensures SplitSkills(Join(skills, ", ")) == skills
  {
    JoinSingle(skills, ", ");
    SplitSkillsOfClean(skill);
  }

  /** A clean skill on its own splits back to itself. */
  lemma SplitSkillsOfClean(skill: string)
    requires CleanSkill(skill)
    ensures SplitSkills(skill) == [skill]
  {
    SplitWithout(skill, ',');
    MapSingle(Strip, skill);
  }

  /** One step of the round trip: the first skill comes back first, and
      the others come back as the split of the rest of the join. */
  lemma SplitSkillsJoinStep(skills: seq<string>, first: string, others: seq<string>)
    requires skills == [first] + others && others != [] && CleanSkill(first)
    requires SplitSkills(Join(others, ", ")) == others
    ensures SplitSkills(Join(skills, ", ")) == skills
  {
    var rest := Join(others, ", ");
    SplitJoinFront(first, others);
    SplitLeadingSpaceStripped(rest);
    StripAllCons(first, Split([' '] + rest, ','));
  }

  /** Splitting a join at its first comma gives back the first skill. */
  lemma SplitJoinFront(first: string, others: seq<string>)
    requires others != [] && ',' !in first
    ensures Split(Join([first] + others, ", "), ',') == [first] + Split([' '] + Join(others, ", "), ',')
  {
    JoinUnfold(first, others);
    SplitAtFirst(first, ',', [' '] + Join(others, ", "));
  }

  /** `CleanSkill` of every entry, one entry at a time. */
  predicate AllClean(skills: seq<string>)
  {
    skills == [] || (CleanSkill(skills[0]) && AllClean(skills[1..]))
  }

  lemma {:induction false} AllCleanFromEach(skills: seq<string>)
    requires forall i :: 0 <= i < |skills| ==> CleanSkill(skills[i])
    ensures AllClean(skills)
  {
    if skills != [] {
      assert forall i :: 0 <= i < |skills[1..]| ==> CleanSkill(skills[1..][i]) by {
        forall i | 0 <= i < |skills[1..]| ensures CleanSkill(skills[1..][i]) {
          assert skills[1..][i] == skills[i + 1];
        }
      }
      AllCleanFromEach(skills[1..]);
    }
  }

  /** A skill as `SplitSkills` yields it: comma-free and trimmed. */
  predicate CleanSkill(skill: string)
  {
    ',' !in skill && Strip(skill) == skill
  }

  lemma JoinUnfold(first: string, others: seq<string>)
    requires others != []
    ensures Join([first] + others, ", ") == first + [','] + ([' '] + Join(others, ", "))
  {
    assert ([first] + others)[1..] == others;
  }

  // ---------------------------------------------------------------------
  // End-token scan

  /** One entry of `phase_end_tokens`: the token the LLM ends a phase with,
      the line spoken after it, and the phase it leads to. */
  datatype PhaseEnd = PhaseEnd(token: string, message: string, next: Phase)

  /** `phase_end_tokens`, in the dict's insertion order, which is the order
      the scan checks them in. */
  const PhaseEndTokens: seq<PhaseEnd> := [
    PhaseEnd("[END_BEHAVIORAL]",
             "Great, let's " + "move on to some " + "technical questions.", TECHNICAL),
    PhaseEnd("[END_TECHNICAL]",
             "Excellent. Now " + "let's move on to " + "our coding round.", CODING),
    PhaseEnd("[END_CODING]",
             "Thanks for walking " + "me through that. " + "We're almost " + "at the end.", CONCLUSION),
    PhaseEnd("[END_CONCLUSION]",
             "Thank you for " + "your questions. " + "I can now provide " + "some feedback.", FEEDBACK)
  ]

  /** What the scan leaves behind: the reply text to speak, the phase to
      move to (if any) and the transition line to speak after it. */
  datatype ScanOutcome = ScanOutcome(text: string, next: Option<Phase>, message: string)

  /** The index of the first entry whose token occurs in `response`, if
      any. */
  function FirstEnd(response: string, ends: seq<PhaseEnd>): (k: Option<nat>)
    ensures k.Some? ==> k.value < |ends| && Contains(response, ends[k.value].token)
    ensures k.Some? ==> forall j :: 0 <= j < k.value ==> !Contains(response, ends[j].token)
    ensures k.None? ==> forall j :: 0 <= j < |ends| ==> !Contains(response, ends[j].token)
  {
    if ends == [] then None
    else if Contains(response, ends[0].token) then Some(0)
    else
      var k := FirstEnd(response, ends[1..]);
      if k.None? then None else Some(k.value + 1)
  }

  /** The scan's effect, as a function of the reply: with no token the
      reply is kept whole and nothing moves; otherwise the first token in
      table order wins, all its occurrences are cut out, the rest is
      stripped, and its phase and transition line are chosen. */
  function Scan(response: string): ScanOutcome
  {
    match FirstEnd(response, PhaseEndTokens)
    case None => ScanOutcome(response, None, "")
    case Some(k) =>
      ScanOutcome(Strip(RemoveAll(response, PhaseEndTokens[k].token)), Some(PhaseEndTokens[k].next),
                  PhaseEndTokens[k].message)
  }

  /** The `for token, (message, next_phase) in phase_end_tokens.items()`
      loop of `handle_llm_response`, which breaks at the first token found. */
  method ScanEndTokens(response: string) returns (text: string, next: Option<Phase>, message: string)
    ensures ScanOutcome(text, next, message) == Scan(response)
  {
    text, next, message := response, None, "";
    var i := 0;
    while i < |PhaseEndTokens|
      invariant 0 <= i <= |PhaseEndTokens|
      invariant forall j :: 0 <= j < i ==> !Contains(response, PhaseEndTokens[j].token)
      invariant text == response && next == None && message == ""
    {
      var entry := PhaseEndTokens[i];
      if Contains(text, entry.token) {
        text := Strip(RemoveAll(text, entry.token));
        next := Some(entry.next);
        message := entry.message;
        FirstEndIs(response, PhaseEndTokens, i);
        return;
      }
      i := i + 1;
    }
    FirstEndNone(response, PhaseEndTokens);
  }

  /** When entry `k` is the first whose token occurs, `FirstEnd` finds it. */
  lemma {:induction false} FirstEndIs(response: string, ends: seq<PhaseEnd>, k: nat)
    requires k < |ends| && Contains(response, ends[k].token)
    requires forall j :: 0 <= j < k ==> !Contains(response, ends[j].token)
    ensures FirstEnd(response, ends) == Some(k)
  {
    if k > 0 {
      FirstEndIs(response, ends[1..], k - 1);
    }
  }

  /** When no token occurs, `FirstEnd` finds nothing. */
  lemma {:induction false} FirstEndNone(response: string, ends: seq<PhaseEnd>)
    requires forall j :: 0 <= j < |ends| ==> !Contains(response, ends[j].token)
    ensures FirstEnd(response, ends) == None
  {
    if ends != [] {
      FirstEndNone(response, ends[1..]);
    }
  }

  /** With no end token in the reply, the reply is spoken as it came and the
      phase stays. */
  lemma ScanWithoutToken(response: string)
    requires forall j :: 0 <= j < |PhaseEndTokens| ==> !Contains(response, PhaseEndTokens[j].token)
    ensures Scan(response) == ScanOutcome(response, None, "")
  {
    FirstEndNone(response, PhaseEndTokens);
  }

  /** A reply holding [END_BEHAVIORAL] moves to TECHNICAL whatever other
      tokens it holds: later entries are not even looked at. */
  lemma ScanBehavioralWins(response: string)
    requires Contains(response, "[END_BEHAVIORAL]")
    ensures Scan(response).next == Some(TECHNICAL)
    ensures Scan(response).text == Strip(RemoveAll(response, "[END_BEHAVIORAL]"))
  {
    FirstEndIs(response, PhaseEndTokens, 0);
  }

  /** The token a phase's prompt asks for is the one the scan maps to the
      next phase in declaration order, so a reply that carries only its
      own phase's token advances exactly as `advance_phase` would. */
  lemma NamedTokenAdvances(p: Phase, response: string)
    requires NamedEndToken(p).Some? && Contains(response, NamedEndToken(p).value)
    requires forall j :: 0 <= j < |PhaseEndTokens| && PhaseEndTokens[j].token != NamedEndToken(p).value
               ==> !Contains(response, PhaseEndTokens[j].token)
    ensures Scan(response).next == Some(NextPhase(p))
    ensures Scan(response).text == Strip(RemoveAll(response, NamedEndToken(p).value))
  {
    var k := Index(p) - 3;
    assert 0 <= k < |PhaseEndTokens| && PhaseEndTokens[k].token == NamedEndToken(p).value;
    forall j | 0 <= j < k ensures !Contains(response, PhaseEndTokens[j].token) {
      assert PhaseEndTokens[j].token != PhaseEndTokens[k].token;
    }
    FirstEndIs(response, PhaseEndTokens, k);
  }

  // ---------------------------------------------------------------------
  // Frames the server writes

  /** The binary frames `speak` writes for the TTS chunks: one per chunk,
      in stream order, to the client's socket, or none once the client is
      gone (`send_bytes` drops them). */
  function SpeechFrames<W>(conns: map<string, W>, clientId: string, chunks: seq<seq<byte>>): (r: seq<Frame<W>>)
    ensures clientId !in conns ==> r == []
    ensures clientId in conns ==> |r| == |chunks|
    ensures clientId in conns ==> forall i :: 0 <= i < |r| ==> r[i] == BytesFrame(conns[clientId], chunks[i])
  {
    if clientId in conns then
      seq(|chunks|, i requires 0 <= i < |chunks| => BytesFrame(conns[clientId], chunks[i]))
    else []
  }

  lemma SpeechFramesSnoc<W>(conns: map<string, W>, clientId: string, chunks: seq<seq<byte>>, c: seq<byte>)
    ensures SpeechFrames(conns, clientId, chunks + [c])
         == SpeechFrames(conns, clientId, chunks) + Forward(conns, clientId, (w: W) => BytesFrame(w, c))
  {
  }

  /** The audio frames for a text that is spoken only when it is not
      empty (`if cleaned_response:` and `if transition_message:`). */
  function SpokenFrames<W>(conns: map<string, W>, clientId: string, text: string, tts: Tts): (r: seq<Frame<W>>)
    ensures text == "" ==> r == []
    ensures text != "" ==> r == SpeechFrames(conns, clientId, tts(text))
  {
    if text != "" then SpeechFrames(conns, clientId, tts(text)) else []
  }

  /** What `handle_llm_response` writes once the LLM has replied: the
      transcript line with the raw reply (tokens still in it), then the
      cleaned reply's audio if any text is left, then the transition line's
      audio if a token was found. */
  function ReplyFrames<W>(conns: map<string, W>, clientId: string, reply: string, tts: Tts): seq<Frame<W>>
    requires clientId in conns
  {
    var o := Scan(reply);
    [JsonFrame(conns[clientId], "transcript", "Alex: " + reply)]
    + SpokenFrames(conns, clientId, o.text, tts) + SpokenFrames(conns, clientId, o.message, tts)
  }

  /** The session table after the scan: the client's phase is set to the
      phase the scan chose, if it chose one; every other client's session
      and every other field of this one stay as they were. */
  function AfterScan(sessions: map<string, Session>, clientId: string, o: ScanOutcome): (r: map<string, Session>)
    requires clientId in sessions
    ensures r.Keys == sessions.Keys
    ensures forall id :: id in sessions && id != clientId ==> r[id] == sessions[id]
    ensures o.next.None? ==> r == sessions
    ensures o.next.Some? ==> r[clientId] == sessions[clientId].(phase := o.next.value)
  {
    if o.next.Some? then sessions[clientId := sessions[clientId].(phase := o.next.value)] else sessions
  }

  /** A token occurs in a text that holds '[' only at its start only if
      the text starts with it. */
  lemma TokenOnlyAtStart(r: string, t: string)
    requires |t| > 0 && t[0] == '[' && |r| > 0 && '[' !in r[1..]
    requires !StartsWith(r, t)
    ensures !Contains(r, t)
  {
    forall i | 0 <= i <= |r| ensures !OccursAt(r, t, i) {
      if 0 < i <= |r| - |t| {
        assert r[i] == r[1..][i - 1];
        assert r[i..i + |t|][0] == r[i];
      }
    }
  }

  /** No token of the table occurs in a later one. */
  lemma EarlierTokenAbsent(j: nat, k: nat)
    requires j < k < |PhaseEndTokens|
    ensures !Contains(PhaseEndTokens[k].token, PhaseEndTokens[j].token)
  {
    var r, t := PhaseEndTokens[k].token, PhaseEndTokens[j].token;
    if |t| <= |r| {
      assert k == 3;
      ConclusionTokenShape(j);
      TokenOnlyAtStart(r, t);
    }
  }

  /** [END_CONCLUSION] holds '[' only at its start and starts with none of
      the tokens before it. */
  lemma ConclusionTokenShape(j: nat)
    requires j < 3
    ensures '[' !in PhaseEndTokens[3].token[1..]
    ensures PhaseEndTokens[j].token[0] == '['
    ensures !StartsWith(PhaseEndTokens[3].token, PhaseEndTokens[j].token)
  {
    var r := "[END_CONCLUSION]";
    var t := PhaseEndTokens[j].token;
    assert PhaseEndTokens[3].token == r;
    BracketOnlyAtStart(r);
    if j == 2 {
      assert t == "[END_CODING]";
      assert t[7] == 'D';
    } else if j == 1 {
      assert t == "[END_TECHNICAL]";
      assert t[5] == 'T';
    } else {
      assert t == "[END_BEHAVIORAL]";
      assert t[5] == 'B';
    }
    assert r[5] == 'C' && r[7] == 'N';
    assert |t| <= |r| ==> r[..|t|][5] == r[5] && r[..|t|][7] == r[7];
  }

  lemma BracketOnlyAtStart(r: string)
    requires r == "[END_CONCLUSION]"
    ensures '[' !in r[1..]
  {
    assert r[1..] == "END_CONCLUSION]";
  }

  /** A reply that is exactly one end token leaves nothing to speak, moves
      to that entry's phase and chooses its transition line. */
  lemma ScanBareToken(k: nat)
    requires k < |PhaseEndTokens|
    ensures Scan(PhaseEndTokens[k].token) == ScanOutcome("", Some(PhaseEndTokens[k].next), PhaseEndTokens[k].message)
  {
    var r := PhaseEndTokens[k].token;
    assert OccursAt(r, r, 0);
    forall j | 0 <= j < k ensures !Contains(r, PhaseEndTokens[j].token) {
      EarlierTokenAbsent(j, k);
    }
    FirstEndIs(r, PhaseEndTokens, k);
    assert r[..|r|] == r && r[|r|..] == [];
    assert RemoveAll(r, r) == [];
    assert Strip([]) == [];
  }

  /** When nothing of the reply is left once the token is cut out, the
      reply is not spoken: after the transcript line (which still shows
      the raw reply) only the transition line is, and when no token was
      found the reply was empty and nothing is spoken at all. */
  lemma NothingLeftSpeaksOnlyTransition<W>(conns: map<string, W>, clientId: string, reply: string, tts: Tts)
    requires clientId in conns && Scan(reply).text == ""
    ensures Scan(reply).next.None? ==>
      reply == "" && ReplyFrames(conns, clientId, reply, tts) == [JsonFrame(conns[clientId], "transcript", "Alex: ")]
    ensures Scan(reply).next.Some? ==>
      ReplyFrames(conns, clientId, reply, tts)
      == [JsonFrame(conns[clientId], "transcript", "Alex: " + reply)]
         + SpeechFrames(conns, clientId, tts(Scan(reply).message))
  {
    var o := Scan(reply);
    var line := [JsonFrame(conns[clientId], "transcript", "Alex: " + reply)];
    assert ReplyFrames(conns, clientId, reply, tts)
        == line + SpokenFrames(conns, clientId, o.text, tts) + SpokenFrames(conns, clientId, o.message, tts);
    assert line + [] == line;
    if o.next.Some? {
      MessagesNonEmpty(FirstEnd(reply, PhaseEndTokens).value);
    } else {
      assert reply == [];
      assert "Alex: " + reply == "Alex: ";
    }
  }

  /** Every transition line has something to say. */
  lemma MessagesNonEmpty(k: nat)
    requires k < |PhaseEndTokens|
    ensures |PhaseEndTokens[k].message| > 0
  {
  }

  /** Each of the four end tokens, sent alone, is shown raw in the
      transcript and not spoken; only its transition line is. */
  lemma BareTokenReplySpeaksOnlyTransition<W>(conns: map<string, W>, clientId: string, k: nat, tts: Tts)
    requires clientId in conns && k < |PhaseEndTokens|
    ensures ReplyFrames(conns, clientId, PhaseEndTokens[k].token, tts)
         == [JsonFrame(conns[clientId], "transcript", "Alex: " + PhaseEndTokens[k].token)]
            + SpeechFrames(conns, clientId, tts(PhaseEndTokens[k].message))
  {
    ScanBareToken(k);
    NothingLeftSpeaksOnlyTransition(conns, clientId, PhaseEndTokens[k].token, tts);
  }

  /** The session after a successful parse in `setup_interview`: resume
      text and skills stored and the phase set to BEHAVIORAL, all before the
      first question is asked. */
  function SetUpSession(s: Session, resumeText: string, skills: string): (r: Session)
    ensures r.phase == BEHAVIORAL && r.resumeText == Some(resumeText)
    ensures r.skills == SplitSkills(skills)
    ensures r.targetRole == s.targetRole && r.chatMemory == s.chatMemory
  {
    s.(resumeText := Some(resumeText), skills := SplitSkills(skills), phase := BEHAVIORAL)
  }

  /** The first question is asked under the BEHAVIORAL prompt, which
      carries the freshly parsed resume ... */
  lemma FirstQuestionPromptCarriesResume(s: Session, resumeText: string, skills: string)
    ensures Contains(GetSystemPrompt(SetUpSession(s, resumeText, skills)), resumeText)
  {
    var t := SetUpSession(s, resumeText, skills);
    assert PyStr(t.resumeText) == resumeText;
    BehavioralPromptCarriesResume(t);
  }

  /** ... and names [END_BEHAVIORAL]. */
  lemma FirstQuestionPromptNamesEndToken(s: Session, resumeText: string, skills: string)
    ensures Contains(GetSystemPrompt(SetUpSession(s, resumeText, skills)), "[END_BEHAVIORAL]")
  {
    var t := SetUpSession(s, resumeText, skills);
    assert NamedEndToken(t.phase) == Some("[END_BEHAVIORAL]");
    PromptNamesEndToken(t);
  }

  /** The JSON body `setup_interview` answers with. */
  datatype SetupResponse = SetupResponse(status: string, message: string)

  const FirstQuestionInput := "Start the interview now."
  const InvalidSession := SetupResponse("error", "Invalid session. Please reconnect.")
  const SetupComplete := SetupResponse("success", "Interview setup complete. Starting now.")

  function SetupFailed(e: string): SetupResponse
  {
    SetupResponse("error", "Failed to set up interview. Server error: " + e)
  }

  // ---------------------------------------------------------------------
  // The server

  /** The process-wide state the handlers share: the session table and the
      connection manager. */
  class Server<W(==)> {
    const store: SessionStore
    const manager: ConnectionManager<W>
    /** `get_system_prompt`, as the handlers call it. The constructor binds
        it to `GetSystemPrompt`; the handlers' contracts are stated through
        this field so that their proofs need not unfold the prompt text. */
    const systemPrompt: Session -> string

    constructor ()
      ensures fresh(store) && fresh(manager)
      ensures store.sessions == map[] && manager.activeConnections == map[] && manager.outbox == []
      ensures systemPrompt == GetSystemPrompt
    {
      store := new SessionStore();
      manager := new ConnectionManager();
      systemPrompt := GetSystemPrompt;
    }

    /** `speak`: every audio chunk of the TTS stream for `text` goes out
        through `send_bytes`, in stream order. */
    method Speak(clientId: string, text: string, tts: Tts)
      modifies manager
      ensures manager.activeConnections == old(manager.activeConnections)
      ensures manager.outbox == old(manager.outbox) + SpeechFrames(old(manager.activeConnections), clientId, tts(text))
    {
      var chunks := tts(text);
      var i := 0;
      while i < |chunks|
        invariant 0 <= i <= |chunks|
        invariant manager.activeConnections == old(manager.activeConnections)
        invariant manager.outbox == old(manager.outbox) + SpeechFrames(manager.activeConnections, clientId, chunks[..i])
      {
        SpeechFramesSnoc(manager.activeConnections, clientId, chunks[..i], chunks[i]);
        assert chunks[..i + 1] == chunks[..i] + [chunks[i]];
        manager.SendBytes(chunks[i], clientId);
        i := i + 1;
      }
      assert chunks[..i] == chunks;
    }

    /** `setup_interview`. An unknown client gets the "Invalid session"
        answer and nothing changes. A parse failure is reported with its
        message and leaves the session as it was. Otherwise resume text,
        skills and the BEHAVIORAL phase are stored first; then the LLM is
        asked for the first question under that session's prompt, and an
        exception there is reported (the stored changes stay); a question
        is spoken and "success" returned. */
    method SetupInterview(clientId: string, skills: string, parsed: Call<string>, llm: Llm, tts: Tts)
      returns (response: SetupResponse)
      modifies store, manager
      ensures manager.activeConnections == old(manager.activeConnections)
      ensures clientId !in old(store.sessions) ==>
        response == InvalidSession && store.sessions == old(store.sessions) && manager.outbox == old(manager.outbox)
      ensures clientId in old(store.sessions) && parsed.Raised? ==>
        response == SetupFailed(parsed.error) && store.sessions == old(store.sessions)
        && manager.outbox == old(manager.outbox)
      ensures clientId in old(store.sessions) && parsed.Returned? ==>
        var s := SetUpSession(old(store.sessions)[clientId], parsed.value, skills);
        var q := llm(systemPrompt(s), s.chatMemory, FirstQuestionInput);
        && store.sessions == old(store.sessions)[clientId := s]
        && (q.Raised? ==> response == SetupFailed(q.error) && manager.outbox == old(manager.outbox))
        && (q.Returned? ==>
              response == SetupComplete
              && manager.outbox == old(manager.outbox) + SpeechFrames(old(manager.activeConnections), clientId, tts(q.value)))
    {
      var found := store.GetSession(clientId);
      if found.None? {
        return InvalidSession;
      }
      if parsed.Raised? {
        return SetupFailed(parsed.error);
      }
      var session := SetUpSession(found.value, parsed.value, skills);
      store.sessions := store.sessions[clientId := session];
      var prompt := systemPrompt(session);
      var firstQuestion := llm(prompt, session.chatMemory, FirstQuestionInput);
      if firstQuestion.Raised? {
        return SetupFailed(firstQuestion.error);
      }
      Speak(clientId, firstQuestion.value, tts);
      return SetupComplete;
    }

    /** `handle_llm_response`. The reply is asked for under the session's
        current prompt; `ok` is false when the LLM raised, in which case
        nothing changes; otherwise the reply is dealt with as
        `DeliverReply` says. The caller guarantees the session and the
        connection exist (the source would raise otherwise). */
    method HandleLlmResponse(clientId: string, text: string, llm: Llm, tts: Tts) returns (ok: bool)
      requires clientId in store.sessions && clientId in manager.activeConnections
      modifies store, manager
      ensures manager.activeConnections == old(manager.activeConnections)
      ensures
        var s := old(store.sessions)[clientId];
        var reply := llm(systemPrompt(s), s.chatMemory, text);
        && ok == reply.Returned?
        && (!ok ==> store.sessions == old(store.sessions) && manager.outbox == old(manager.outbox))
        && (ok ==>
             && store.sessions == AfterScan(old(store.sessions), clientId, Scan(reply.value))
             && manager.outbox == old(manager.outbox) + ReplyFrames(old(manager.activeConnections), clientId, reply.value, tts))
    {
      var session := store.sessions[clientId];
      var prompt := systemPrompt(session);
      var reply := llm(prompt, session.chatMemory, text);
      if reply.Raised? {
        return false;
      }
      DeliverReply(clientId, reply.value, tts);
      return true;
    }

    /** The rest of `handle_llm_response` once the LLM has replied: the
        "Alex: " transcript line carries the raw reply; the end-token scan
        then sets the phase (whatever it was before) and decides what is
        spoken, the cleaned reply first and the transition line after it. */
    method DeliverReply(clientId: string, response: string, tts: Tts)
      requires clientId in store.sessions && clientId in manager.activeConnections
      modifies store, manager
      ensures manager.activeConnections == old(manager.activeConnections)
      ensures store.sessions == AfterScan(old(store.sessions), clientId, Scan(response))
      ensures manager.outbox == old(manager.outbox) + ReplyFrames(old(manager.activeConnections), clientId, response, tts)
    {
      ghost var conns := manager.activeConnections;
      var line := [JsonFrame(manager.activeConnections[clientId], "transcript", "Alex: " + response)];
      manager.outbox := manager.outbox + line;
      var cleaned, nextPhase, transition := ScanEndTokens(response);
      ghost var o := ScanOutcome(cleaned, nextPhase, transition);
      SetPhase(clientId, nextPhase);
      assert store.sessions == AfterScan(old(store.sessions), clientId, o);
      SpeakIfAny(clientId, cleaned, tts);
      SpeakIfAny(clientId, transition, tts);
      assert manager.outbox == old(manager.outbox) + ReplyFrames(conns, clientId, response, tts) by {
        AppendThree(old(manager.outbox), line, SpokenFrames(conns, clientId, cleaned, tts),
                    SpokenFrames(conns, clientId, transition, tts));
      }
    }

    /** Moves the client's session to `next`, if the scan chose a phase. */
    method SetPhase(clientId: string, next: Option<Phase>)
      requires clientId in store.sessions
      modifies store
      ensures next.None? ==> store.sessions == old(store.sessions)
      ensures next.Some? ==> store.sessions == old(store.sessions)[clientId := old(store.sessions)[clientId].(phase := next.value)]
    {
      if next.Some? {
        store.sessions := store.sessions[clientId := store.sessions[clientId].(phase := next.value)];
      }
    }

    /** Speaks `text` unless it is empty. */
    method SpeakIfAny(clientId: string, text: string, tts: Tts)
      modifies manager
      ensures manager.activeConnections == old(manager.activeConnections)
      ensures manager.outbox == old(manager.outbox) + SpokenFrames(old(manager.activeConnections), clientId, text, tts)
    {
      if text != "" {
        Speak(clientId, text, tts);
      } else {
        assert manager.outbox == manager.outbox + [];
      }
    }

    /** Entering `websocket_endpoint`: the socket is accepted and recorded,
        and a fresh session replaces any earlier one for that client. */
    method OpenSocket(websocket: W, clientId: string)
      modifies store, manager
      ensures manager.activeConnections == old(manager.activeConnections)[clientId := websocket]
      ensures manager.outbox == old(manager.outbox)
      ensures store.sessions == old(store.sessions)[clientId := NewSession()]
    {
      manager.Connect(websocket, clientId);
      var _ := store.CreateSession(clientId);
    }

    /** One turn of the `websocket_endpoint` loop for a received utterance:
        the transcribed text goes back as a "You: " transcript line, and the
        LLM is consulted only when the text is not blank. An exception
        (from speech-to-text or the LLM) ends the loop and disconnects the
        client; `open` says whether the loop goes on. */
    method ReceiveUtterance(clientId: string, userText: Call<string>, llm: Llm, tts: Tts) returns (open: bool)
      requires clientId in store.sessions && clientId in manager.activeConnections
      modifies store, manager
      ensures userText.Raised? ==>
        !open && store.sessions == old(store.sessions) && manager.outbox == old(manager.outbox)
        && manager.activeConnections == old(manager.activeConnections) - {clientId}
      ensures userText.Returned? ==>
        |manager.outbox| > |old(manager.outbox)|
        && manager.outbox[|old(manager.outbox)|]
           == JsonFrame(old(manager.activeConnections)[clientId], "transcript", "You: " + userText.value)
      ensures userText.Returned? && Strip(userText.value) == "" ==>
        open && store.sessions == old(store.sessions)
        && manager.activeConnections == old(manager.activeConnections)
        && manager.outbox == old(manager.outbox)
           + [JsonFrame(old(manager.activeConnections)[clientId], "transcript", "You: " + userText.value)]
      ensures userText.Returned? && Strip(userText.value) != "" ==>
        var s := old(store.sessions)[clientId];
        var reply := llm(systemPrompt(s), s.chatMemory, userText.value);
        var you := JsonFrame(old(manager.activeConnections)[clientId], "transcript", "You: " + userText.value);
        && open == reply.Returned?
        && (reply.Returned? ==>
              && store.sessions == AfterScan(old(store.sessions), clientId, Scan(reply.value))
              && manager.outbox == old(manager.outbox) + [you]
                 + ReplyFrames(old(manager.activeConnections), clientId, reply.value, tts))
        && (reply.Raised? ==>
              store.sessions == old(store.sessions) && manager.outbox == old(manager.outbox) + [you])
      ensures open ==> manager.activeConnections == old(manager.activeConnections)
      ensures !open ==> manager.activeConnections == old(manager.activeConnections) - {clientId}
    {
      if userText.Raised? {
        manager.Disconnect(clientId);
        return false;
      }
      var line := JsonFrame(manager.activeConnections[clientId], "transcript", "You: " + userText.value);
      manager.outbox := manager.outbox + [line];
      if Strip(userText.value) != "" {
        ghost var before := manager.outbox;
        open := HandleLlmResponse(clientId, userText.value, llm, tts);
        assert manager.outbox[..|before|] == before;
        assert before == old(manager.outbox) + [line];
        if !open {
          manager.Disconnect(clientId);
        }
      } else {
        open := true;
      }
    }

    /** `WebSocketDisconnect`: the client's connection is dropped; its
        session stays in the table. */
    method CloseSocket(clientId: string)
      modifies manager
      ensures manager.activeConnections == old(manager.activeConnections) - {clientId}
      ensures manager.outbox == old(manager.outbox)
      ensures store.sessions == old(store.sessions)
    {
      manager.Disconnect(clientId);
    }
  }
}
