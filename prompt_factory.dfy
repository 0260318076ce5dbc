/** The system prompt the LLM chain is given, chosen by the session's phase
    (backend/interview_flow/prompt_factory.py). The prompt text is kept
    verbatim, split where session fields and end tokens are spliced in, and
    the persona and FEEDBACK texts line by line. */
module PromptFactory {
  import opened Common
  import opened Text
  import opened InterviewSession

  /** How a Python f-string renders a `str | None` field. */
  function PyStr(o: Option<string>): (r: string)
    ensures o.Some? ==> r == o.value
    ensures o.None? ==> r == "None"
  {
    match o
    case Some(s) => s
    case None => "None"
  }

  /** `base_prompt`, the persona every prompt starts with. */
  const BasePrompt: string := "\n" + PersonaLine + VoiceLine + TurnLine + CharacterLine

  const PersonaLine: string := PersonaLineHead + PersonaLineTail

  const PersonaLineHead: string :=
    "You are 'Alex', " + "an expert AI " + "mock interviewer. "

  const PersonaLineTail: string :=
    "Your persona " + "is professional, " + "encouraging, " + "and concise.\n"

  const VoiceLine: string := VoiceLineHead + VoiceLineTail

  const VoiceLineHead: string :=
    "You are conducting " + "a live voice " + "interview, so "

  const VoiceLineTail: string :=
    "keep your responses " + "brief and conversational.\n"

  const TurnLine: string := TurnLineHead + TurnLineTail

  const TurnLineHead: string :=
    "You must follow " + "a strict turn-by-turn " + "conversation. " + "Ask ONE question "

  const TurnLineTail: string :=
    "at a time and " + "then WAIT for " + "the user's response " + "before proceeding.\n"

  const CharacterLine: string :=
    "Never break " + "character. You " + "are not a language " + "model.\n"

  const FeedbackGoalLine: string := FeedbackGoalLineHead + FeedbackGoalLineTail

  const FeedbackGoalLineHead: string :=
    "            You " + "are in the FEEDBACK " + "phase. Your "

  const FeedbackGoalLineTail: string :=
    "goal is to provide " + "a final summary " + "based on the " + "entire conversation.\n"

  const FeedbackBriefLine: string :=
    "            - " + "Provide brief, " + "constructive " + "feedback.\n"

  const FeedbackStructureLine: string := FeedbackStructureLineHead + FeedbackStructureLineMiddle + FeedbackStructureLineTail

  const FeedbackStructureLineHead: string :=
    "            - " + "Structure it " + "into three short "

  const FeedbackStructureLineMiddle: string :=
    "points: 1) What " + "they did well, " + "2) An area for "

  const FeedbackStructureLineTail: string :=
    "improvement, " + "3) A final encouraging " + "remark.\n"

  const FeedbackFinalLine: string :=
    "            - " + "This is your " + "final message. " + "Keep it concise.\n"

  lemma PersonaLineHeadUnbracketed()
    ensures '[' !in PersonaLineHead
  {
    assert '[' !in "You are 'Alex', ";
    assert '[' !in "an expert AI ";
    assert '[' !in "mock interviewer. ";
  }

  lemma PersonaLineTailUnbracketed()
    ensures '[' !in PersonaLineTail
  {
    assert '[' !in "Your persona ";
    assert '[' !in "is professional, ";
    assert '[' !in "encouraging, ";
    assert '[' !in "and concise.\n";
  }

  lemma PersonaLineUnbracketed()
    ensures '[' !in PersonaLine
  {
    PersonaLineHeadUnbracketed();
    PersonaLineTailUnbracketed();
  }

  lemma VoiceLineHeadUnbracketed()
    ensures '[' !in VoiceLineHead
  {
    assert '[' !in "You are conducting ";
    assert '[' !in "a live voice ";
    assert '[' !in "interview, so ";
  }

  lemma VoiceLineTailUnbracketed()
    ensures '[' !in VoiceLineTail
  {
    assert '[' !in "keep your responses ";
    assert '[' !in "brief and conversational.\n";
  }

  lemma VoiceLineUnbracketed()
    ensures '[' !in VoiceLine
  {
    VoiceLineHeadUnbracketed();
    VoiceLineTailUnbracketed();
  }

  lemma TurnLineHeadUnbracketed()
    ensures '[' !in TurnLineHead
  {
    assert '[' !in "You must follow ";
    assert '[' !in "a strict turn-by-turn ";
    assert '[' !in "conversation. ";
    assert '[' !in "Ask ONE question ";
  }

  lemma TurnLineTailUnbracketed()
    ensures '[' !in TurnLineTail
  {
    assert '[' !in "at a time and ";
    assert '[' !in "then WAIT for ";
    assert '[' !in "the user's response ";
    assert '[' !in "before proceeding.\n";
  }

  lemma TurnLineUnbracketed()
    ensures '[' !in TurnLine
  {
    TurnLineHeadUnbracketed();
    TurnLineTailUnbracketed();
  }

  lemma CharacterLineUnbracketed()
    ensures '[' !in CharacterLine
  {
    assert '[' !in "Never break ";
    assert '[' !in "character. You ";
    assert '[' !in "are not a language ";
    assert '[' !in "model.\n";
  }

  lemma FeedbackGoalLineHeadUnbracketed()
    ensures '[' !in FeedbackGoalLineHead
  {
    assert '[' !in "            You ";
    assert '[' !in "are in the FEEDBACK ";
    assert '[' !in "phase. Your ";
  }

  lemma FeedbackGoalLineTailUnbracketed()
    ensures '[' !in FeedbackGoalLineTail
  {
    assert '[' !in "goal is to provide ";
    assert '[' !in "a final summary ";
    assert '[' !in "based on the ";
    assert '[' !in "entire conversation.\n";
  }

  lemma FeedbackGoalLineUnbracketed()
    ensures '[' !in FeedbackGoalLine
  {
    FeedbackGoalLineHeadUnbracketed();
    FeedbackGoalLineTailUnbracketed();
  }

  lemma FeedbackBriefLineUnbracketed()
    ensures '[' !in FeedbackBriefLine
  {
    assert '[' !in "            - ";
    assert '[' !in "Provide brief, ";
    assert '[' !in "constructive ";
    assert '[' !in "feedback.\n";
  }

  lemma FeedbackStructureLineHeadUnbracketed()
    ensures '[' !in FeedbackStructureLineHead
  {
    assert '[' !in "            - ";
    assert '[' !in "Structure it ";
    assert '[' !in "into three short ";
  }

  lemma FeedbackStructureLineMiddleUnbracketed()
    ensures '[' !in FeedbackStructureLineMiddle
  {
    assert '[' !in "points: 1) What ";
    assert '[' !in "they did well, ";
    assert '[' !in "2) An area for ";
  }

  lemma FeedbackStructureLineTailUnbracketed()
    ensures '[' !in FeedbackStructureLineTail
  {
    assert '[' !in "improvement, ";
    assert '[' !in "3) A final encouraging ";
    assert '[' !in "remark.\n";
  }

  lemma FeedbackStructureLineUnbracketed()
    ensures '[' !in FeedbackStructureLine
  {
    FeedbackStructureLineHeadUnbracketed();
    FeedbackStructureLineMiddleUnbracketed();
    FeedbackStructureLineTailUnbracketed();
  }

  lemma FeedbackFinalLineUnbracketed()
    ensures '[' !in FeedbackFinalLine
  {
    assert '[' !in "            - ";
    assert '[' !in "This is your ";
    assert '[' !in "final message. ";
    assert '[' !in "Keep it concise.\n";
  }

  const BehavioralTask: string :=
    "\n" + "            You " + "are in the BEHAVIORAL " + "phase.\n"
    + "            - " + "Your FIRST and " + "ONLY task right "
    + "now is to say: " + "\"Alright, let's " + "begin. Could "
    + "you please tell " + "me a little " + "bit about yourself "
    + "and walk me " + "through your " + "experience?\" "
    + "Do not ask anything " + "else.\n" + "            - "
    + "After the user " + "introduces themselves, " + "you will be "
    + "given their " + "resume for context. " + "THEN, ask them "
    + "ONE relevant " + "follow-up question " + "about a specific "
    + "project or role " + "from their resume.\n" + "            - "
    + "After the user " + "answers your " + "follow-up question, "
    + "your next response " + "MUST end with " + "the special "
    + "token: "

  const ResumeHeader: string :=
    "\n" + "\n" + "            Resume " + "Context (use "
    + "this AFTER the " + "user's introduction):\n"
    + "            ---\n" + "            "

  const ResumeFooter: string :=
    "\n" + "            ---\n" + "            "

  const TechnicalRoleLead: string :=
    "\n" + "            You " + "are in the TECHNICAL "
    + "phase. Your " + "goal is to assess " + "technical knowledge "
    + "for a '"

  const TechnicalSkillsLead: string :=
    "' role, focusing " + "on: "

  const TechnicalTask: string :=
    ".\n" + "            - " + "Ask ONE technical "
    + "question related " + "to these skills.\n" + "            - "
    + "WAIT for the " + "user's answer.\n" + "            - "
    + "After they answer, " + "provide brief, " + "positive feedback "
    + "(e.g., \"Good, " + "that's correct.\") " + "and then ask "
    + "the NEXT single " + "question.\n" + "            - "
    + "Ask a total " + "of 2-3 questions " + "in this phase.\n"
    + "            - " + "After the final " + "question is "
    + "answered, your " + "response MUST " + "end with the "
    + "special token: "

  const CodingTask: string :=
    "\n" + "            You " + "are in the CODING " + "phase. Your "
    + "goal is to assess " + "problem-solving " + "skills verbally.\n"
    + "            - " + "First, introduce " + "a common coding "
    + "problem (e.g., " + "Two Sum, FizzBuzz, " + "Reverse a String).\n"
    + "            - " + "Then, ask the " + "user to explain "
    + "their logic " + "and approach. " + "Do not ask for " + "code.\n"
    + "            - " + "WAIT for their " + "explanation.\n"
    + "            - " + "After they explain " + "their solution, "
    + "ask about the " + "time and space " + "complexity.\n"
    + "            - " + "After discussing " + "complexity, "
    + "your response " + "MUST end with " + "the special " + "token: "

  const ConclusionTask: string :=
    "\n" + "            You " + "are in the CONCLUSION " + "phase.\n"
    + "            - " + "Your first and " + "only task is "
    + "to ask: \"That " + "concludes our " + "interview. Do "
    + "you have any " + "questions for " + "me?\"\n" + "            - "
    + "If they ask " + "questions, provide " + "brief, generic "
    + "answers.\n" + "            - " + "After addressing "
    + "their questions " + "(or if they " + "have none), "
    + "your response " + "MUST end with " + "the special " + "token: "

  const PhaseClosing: string :=
    "\n" + "            "

  /** The FEEDBACK section; unlike the others it names no end token. */
  const FeedbackTask: string :=
    "\n" + FeedbackGoalLine + FeedbackBriefLine + FeedbackStructureLine + FeedbackFinalLine + "            "


  /** The persona text and the FEEDBACK section hold no '[' at all. */
  lemma UnbracketedTexts()
    ensures '[' !in BasePrompt && '[' !in FeedbackTask
  {
    PersonaLineUnbracketed();
    VoiceLineUnbracketed();
    TurnLineUnbracketed();
    CharacterLineUnbracketed();
    FeedbackGoalLineUnbracketed();
    FeedbackBriefLineUnbracketed();
    FeedbackStructureLineUnbracketed();
    FeedbackFinalLineUnbracketed();
  }

  /** The end token a phase's prompt tells the model to finish its last
      reply with; the pre-interview phases and FEEDBACK name none. */
  function NamedEndToken(p: Phase): Option<string>
  {
    match p
    case BEHAVIORAL => Some("[END_BEHAVIORAL]")
    case TECHNICAL => Some("[END_TECHNICAL]")
    case CODING => Some("[END_CODING]")
    case CONCLUSION => Some("[END_CONCLUSION]")
    case _ => None
  }

  /** The fixed texts of the prompt, in the order they appear in it. A
      prompt is these texts with the session's fields and the end tokens
      spliced in between them (`Render`). */
  datatype Template = Template(
    base: string,
    behavioralTask: string, resumeHeader: string, resumeFooter: string,
    technicalRoleLead: string, technicalSkillsLead: string, technicalTask: string,
    codingTask: string, conclusionTask: string, phaseClosing: string,
    feedbackTask: string)

  /** The texts `get_system_prompt` uses. */
  const Prompts: Template :=
    Template(BasePrompt, BehavioralTask, ResumeHeader, ResumeFooter,
             TechnicalRoleLead, TechnicalSkillsLead, TechnicalTask,
             CodingTask, ConclusionTask, PhaseClosing, FeedbackTask)

  /** The part of the prompt that follows the persona text. */
  function Section(t: Template, s: Session): string
  {
    match s.phase
    case BEHAVIORAL =>
      t.behavioralTask + "[END_BEHAVIORAL]" + t.resumeHeader + PyStr(s.resumeText) + t.resumeFooter
    case TECHNICAL =>
      t.technicalRoleLead + PyStr(s.targetRole) + t.technicalSkillsLead + Join(s.skills, ", ")
      + t.technicalTask + "[END_TECHNICAL]" + t.phaseClosing
    case CODING => t.codingTask + "[END_CODING]" + t.phaseClosing
    case CONCLUSION => t.conclusionTask + "[END_CONCLUSION]" + t.phaseClosing
    case FEEDBACK => t.feedbackTask
    case _ => ""
  }

  /** The prompt for a session: the persona text, then its phase's
      section; the three phases before the interview proper add nothing. */
  function Render(t: Template, s: Session): (r: string)
    ensures StartsWith(r, t.base)
    ensures s.phase in {INTRODUCTION, AWAITING_SKILLS, AWAITING_ROLE} ==> r == t.base
  {
    var r := t.base + Section(t, s);
    assert r[..|t.base|] == t.base;
    r
  }

  /** A rendering is the persona text alone exactly in the three phases
      before the interview proper, provided the FEEDBACK section is not
      empty (every other interview section holds its end token). */
  lemma RenderIsBaseOnlyBeforeInterview(t: Template, s: Session)
    requires |t.feedbackTask| > 0
    ensures s.phase in {INTRODUCTION, AWAITING_SKILLS, AWAITING_ROLE} <==> Render(t, s) == t.base
  {
    if s.phase !in {INTRODUCTION, AWAITING_SKILLS, AWAITING_ROLE} {
      assert |Section(t, s)| > 0;
      assert |Render(t, s)| > |t.base|;
    }
  }

  /** `get_system_prompt(session)`. */
  function GetSystemPrompt(s: Session): string
  {
    Render(Prompts, s)
  }

  /** The prompt is the rendering of the fixed texts. */
  lemma PromptIsRender(s: Session)
    ensures GetSystemPrompt(s) == Render(Prompts, s)
  {
  }

  /** Every prompt begins with the shared persona text, and the three
      phases before the interview proper get exactly that text. */
  lemma PromptStartsWithBase(s: Session)
    ensures StartsWith(GetSystemPrompt(s), BasePrompt)
    ensures s.phase in {INTRODUCTION, AWAITING_SKILLS, AWAITING_ROLE} <==> GetSystemPrompt(s) == BasePrompt
  {
    assert FeedbackTask[0] == '\n';
    RenderIsBaseOnlyBeforeInterview(Prompts, s);
  }

  /** Any BEHAVIORAL rendering embeds the resume text between two fixed
      texts, so the text can be read back from it. */
  lemma RenderEmbedsResume(t: Template, s1: Session, s2: Session)
    requires s1.phase == BEHAVIORAL && s2.phase == BEHAVIORAL
    ensures Contains(Render(t, s1), PyStr(s1.resumeText))
    ensures Render(t, s1) == Render(t, s2) <==> PyStr(s1.resumeText) == PyStr(s2.resumeText)
  {
    var lead := t.behavioralTask + "[END_BEHAVIORAL]" + t.resumeHeader;
    var x1, x2 := PyStr(s1.resumeText), PyStr(s2.resumeText);
    ContainsMiddle(lead, x1, t.resumeFooter);
    ContainsExtend(t.base, lead + x1 + t.resumeFooter, "", x1);
    FramedDetermined(t.base, lead, x1, x2, t.resumeFooter);
  }

  /** The BEHAVIORAL prompt embeds the resume text (or "None" before a
      resume was parsed), and the resume text can be read back from it:
      two BEHAVIORAL prompts are equal exactly when their resume texts are. */
  lemma BehavioralPromptEmbedsResume(s1: Session, s2: Session)
    requires s1.phase == BEHAVIORAL && s2.phase == BEHAVIORAL
    ensures Contains(GetSystemPrompt(s1), PyStr(s1.resumeText))
    ensures GetSystemPrompt(s1) == GetSystemPrompt(s2) <==> PyStr(s1.resumeText) == PyStr(s2.resumeText)
  {
    if PyStr(s1.resumeText) == PyStr(s2.resumeText) {
      SameResumeSamePrompt(s1, s2);
    }
    if GetSystemPrompt(s1) == GetSystemPrompt(s2) {
      SamePromptSameResume(s1, s2);
    }
    BehavioralPromptCarriesResume(s1);
  }

  /** The BEHAVIORAL prompt carries the resume text. */
  lemma BehavioralPromptCarriesResume(s: Session)
    requires s.phase == BEHAVIORAL
    ensures Contains(GetSystemPrompt(s), PyStr(s.resumeText))
  {
    PromptIsRender(s);
    RenderEmbedsResume(Prompts, s, s);
  }

  lemma SameResumeSamePrompt(s1: Session, s2: Session)
    requires s1.phase == BEHAVIORAL && s2.phase == BEHAVIORAL
    requires PyStr(s1.resumeText) == PyStr(s2.resumeText)
    ensures GetSystemPrompt(s1) == GetSystemPrompt(s2)
  {
    PromptIsRender(s1);
    PromptIsRender(s2);
    RenderEmbedsResume(Prompts, s1, s2);
  }

  lemma SamePromptSameResume(s1: Session, s2: Session)
    requires s1.phase == BEHAVIORAL && s2.phase == BEHAVIORAL
    requires GetSystemPrompt(s1) == GetSystemPrompt(s2)
    ensures PyStr(s1.resumeText) == PyStr(s2.resumeText)
  {
    PromptIsRender(s1);
    PromptIsRender(s2);
    RenderEmbedsResume(Prompts, s1, s2);
  }

  /** Any TECHNICAL rendering holds the role, the skills lead and the
      joined skills next to each other. */
  lemma RenderEmbedsRoleAndSkills(t: Template, s: Session)
    requires s.phase == TECHNICAL
    ensures Contains(Render(t, s), PyStr(s.targetRole) + t.technicalSkillsLead + Join(s.skills, ", "))
  {
    var role, skills := PyStr(s.targetRole), Join(s.skills, ", ");
    var x := role + t.technicalSkillsLead + skills;
    var core := t.technicalRoleLead + role + t.technicalSkillsLead + skills;
    ContainsAdjacent(t.technicalRoleLead, role, t.technicalSkillsLead, skills);
    ContainsExtend([], core, t.technicalTask, x);
    ContainsExtend([], core + t.technicalTask, "[END_TECHNICAL]", x);
    ContainsExtend(t.base, core + t.technicalTask + "[END_TECHNICAL]", t.phaseClosing, x);
    ContainsExtend(t.base, core + t.technicalTask + "[END_TECHNICAL]" + t.phaseClosing, [], x);
  }

  /** The TECHNICAL prompt embeds the target role (or "None", which is what
      the shown code always leaves there), then the skills joined by ", " in
      list order, right after it. */
  lemma TechnicalPromptEmbedsRoleAndSkills(s: Session)
    requires s.phase == TECHNICAL
    ensures Contains(GetSystemPrompt(s), PyStr(s.targetRole) + TechnicalSkillsLead + Join(s.skills, ", "))
  {
    RenderEmbedsRoleAndSkills(Prompts, s);
  }

  /** Only the BEHAVIORAL and TECHNICAL prompts read session fields: with
      the same phase, the prompt changes only through the resume text in
      BEHAVIORAL and through the role and skills in TECHNICAL; the chat
      memory never enters it. */
  lemma PromptDependsOnlyOnPhaseFields(s1: Session, s2: Session)
    requires s1.phase == s2.phase
    requires s1.phase == BEHAVIORAL ==> s1.resumeText == s2.resumeText
    requires s1.phase == TECHNICAL ==> s1.targetRole == s2.targetRole && s1.skills == s2.skills
    ensures GetSystemPrompt(s1) == GetSystemPrompt(s2)
  {
  }

  /** Any rendering of an interview phase names that phase's end token. */
  lemma RenderNamesEndToken(t: Template, s: Session)
    requires NamedEndToken(s.phase).Some?
    ensures Contains(Render(t, s), NamedEndToken(s.phase).value)
  {
    var tok := NamedEndToken(s.phase).value;
    match s.phase
    case BEHAVIORAL =>
      var lead := t.behavioralTask;
      var rest := t.resumeHeader + PyStr(s.resumeText) + t.resumeFooter;
      ContainsMiddle(lead, tok, rest);
      assert Section(t, s) == lead + tok + rest;
      ContainsExtend(t.base, Section(t, s), [], tok);
    case TECHNICAL =>
      var lead := t.technicalRoleLead + PyStr(s.targetRole) + t.technicalSkillsLead
                  + Join(s.skills, ", ") + t.technicalTask;
      ContainsMiddle(lead, tok, t.phaseClosing);
      ContainsExtend(t.base, lead + tok + t.phaseClosing, [], tok);
    case CODING =>
      ContainsMiddle(t.codingTask, tok, t.phaseClosing);
      ContainsExtend(t.base, t.codingTask + tok + t.phaseClosing, [], tok);
    case CONCLUSION =>
      ContainsMiddle(t.conclusionTask, tok, t.phaseClosing);
      ContainsExtend(t.base, t.conclusionTask + tok + t.phaseClosing, [], tok);
  }

  /** Each interview phase's prompt names its end token. */
  lemma PromptNamesEndToken(s: Session)
    requires NamedEndToken(s.phase).Some?
    ensures Contains(GetSystemPrompt(s), NamedEndToken(s.phase).value)
  {
    RenderNamesEndToken(Prompts, s);
  }

  /** A rendering whose persona text and FEEDBACK section hold no '['
      contains no bracketed token outside the interview phases. */
  lemma RenderWithoutTokenNamesNone(t: Template, s: Session, tok: string)
    requires '[' !in t.base && '[' !in t.feedbackTask
    requires NamedEndToken(s.phase).None?
    requires |tok| > 0 && tok[0] == '['
    ensures !Contains(Render(t, s), tok)
  {
    assert Render(t, s) == t.base + Section(t, s);
    NotContainsWithoutChar(Render(t, s), tok);
  }

  /** The FEEDBACK prompt, like the pre-interview ones, contains no
      bracketed token at all, so it asks for no phase change. */
  lemma PromptWithoutTokenNamesNone(s: Session, t: string)
    requires NamedEndToken(s.phase).None?
    requires |t| > 0 && t[0] == '['
    ensures !Contains(GetSystemPrompt(s), t)
  {
    UnbracketedTexts();
    RenderWithoutTokenNamesNone(Prompts, s, t);
  }
}
