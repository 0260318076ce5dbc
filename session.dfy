/** The interview phases and the per-client session record
    (backend/models/session.py). */
module InterviewSession {
  import opened Common

  /** The eight phases, in declaration order. */
  datatype Phase =
    | INTRODUCTION
    | AWAITING_SKILLS
    | AWAITING_ROLE
    | BEHAVIORAL
    | TECHNICAL
    | CODING
    | CONCLUSION
    | FEEDBACK

  /** `list(InterviewPhase)`: every member, in declaration order. */
  const AllPhases: seq<Phase> :=
    [INTRODUCTION, AWAITING_SKILLS, AWAITING_ROLE, BEHAVIORAL, TECHNICAL, CODING, CONCLUSION, FEEDBACK]

  /** The `str` value of a phase. The enum derives from `str`, and every
      member's value is spelt exactly like its name. */
  function Value(p: Phase): string
  {
    match p
    case INTRODUCTION => "INTRODUCTION"
    case AWAITING_SKILLS => "AWAITING_SKILLS"
    case AWAITING_ROLE => "AWAITING_ROLE"
    case BEHAVIORAL => "BEHAVIORAL"
    case TECHNICAL => "TECHNICAL"
    case CODING => "CODING"
    case CONCLUSION => "CONCLUSION"
    case FEEDBACK => "FEEDBACK"
  }

  /** `InterviewPhase(s)`: the member whose value is `s`, if there is one. */
  function FromValue(s: string): (r: Option<Phase>)
  {
    if s == "INTRODUCTION" then Some(INTRODUCTION)
    else if s == "AWAITING_SKILLS" then Some(AWAITING_SKILLS)
    else if s == "AWAITING_ROLE" then Some(AWAITING_ROLE)
    else if s == "BEHAVIORAL" then Some(BEHAVIORAL)
    else if s == "TECHNICAL" then Some(TECHNICAL)
    else if s == "CODING" then Some(CODING)
    else if s == "CONCLUSION" then Some(CONCLUSION)
    else if s == "FEEDBACK" then Some(FEEDBACK)
    else None
  }

  /** Values and members are in one-to-one correspondence: looking a value
      up gives back its member, and only phase values are found. */
  lemma ValueRoundTrip(p: Phase, s: string)
    ensures FromValue(Value(p)) == Some(p)
    ensures FromValue(s).Some? ==> Value(FromValue(s).value) == s
  {
  }

  lemma ValueInjective(p: Phase, q: Phase)
    ensures Value(p) == Value(q) ==> p == q
  {
    ValueRoundTrip(p, "");
    ValueRoundTrip(q, "");
  }

  /** Position of a phase in declaration order. */
  function Index(p: Phase): (i: nat)
    ensures i < |AllPhases| && AllPhases[i] == p
  {
    match p
    case INTRODUCTION => 0
    case AWAITING_SKILLS => 1
    case AWAITING_ROLE => 2
    case BEHAVIORAL => 3
    case TECHNICAL => 4
    case CODING => 5
    case CONCLUSION => 6
    case FEEDBACK => 7
  }

  /** Exactly eight phases, each listed once: the list order is the
      declaration order. */
  lemma AllPhasesDistinct()
    ensures |AllPhases| == 8
    ensures forall i, j :: 0 <= i < j < |AllPhases| ==> AllPhases[i] != AllPhases[j]
    ensures forall i :: 0 <= i < |AllPhases| ==> Index(AllPhases[i]) == i
  {
  }

  /** The per-client record. `resumeText` and `targetRole` are Python
      `str | None`; `chatMemory` is the conversation history the LLM chain
      reads. */
  datatype Session = Session(
    phase: Phase,
    resumeText: Option<string>,
    skills: seq<string>,
    targetRole: Option<string>,
    chatMemory: seq<string>)

  /** `InterviewSession()`: the field defaults, with a fresh empty skills
      list and a fresh empty chat memory. */
  function NewSession(): (s: Session)
    ensures s.phase == INTRODUCTION
    ensures s.resumeText == None && s.targetRole == None
    ensures s.skills == [] && s.chatMemory == []
  {
    Session(INTRODUCTION, None, [], None, [])
  }
}
