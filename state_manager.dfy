/** The module-level session table and phase stepping
    (backend/interview_flow/state_manager.py). */
module StateManager {
  import opened Common
  import opened InterviewSession

  /** The phase after `p` in declaration order; the last phase has no
      successor and is kept. */
  function NextPhase(p: Phase): Phase
  {
    if Index(p) + 1 < |AllPhases| then AllPhases[Index(p) + 1] else p
  }

  /** Stepping moves exactly one place forward in declaration order, and
      FEEDBACK, the last phase, is the only phase it keeps. */
  lemma NextPhaseSteps(p: Phase)
    ensures p != FEEDBACK ==> Index(NextPhase(p)) == Index(p) + 1
    ensures NextPhase(p) == p <==> p == FEEDBACK
  {
    AllPhasesDistinct();
  }

  /** Seven steps take a fresh session from INTRODUCTION to FEEDBACK, and
      every later step stays there. */
  lemma {:induction false} NextPhaseReachesFeedback(p: Phase, n: nat)
    requires n >= |AllPhases| - 1 - Index(p)
    ensures Iterate(p, n) == FEEDBACK
    decreases n
  {
    NextPhaseSteps(p);
    if p != FEEDBACK {
      NextPhaseReachesFeedback(NextPhase(p), n - 1);
    } else if n > 0 {
      NextPhaseReachesFeedback(p, n - 1);
    }
  }

  /** `n` successive calls of `advance_phase` on one session. */
  function Iterate(p: Phase, n: nat): Phase
    decreases n
  {
    if n == 0 then p else Iterate(NextPhase(p), n - 1)
  }

  /** `messages` in `get_initial_message`, keyed by the phases' string values
      (the enum derives from `str`, so a phase and its value are the same
      key). */
  const InitialMessages: map<string, string> := map[
    "INTRODUCTION" := "Hello! I'm Alex, your AI-powered interview coach. To start, please upload your resume.",
    "AWAITING_SKILLS" := "Thank you. I've received your resume. Now, please list the key skills you want to be interviewed on, separated by commas.",
    "AWAITING_ROLE" := "Great, I have your skills. What type of role are you targeting? For example, 'Senior Backend Engineer'.",
    "BEHAVIORAL" := "Perfect. I've got everything I need. We'll be focusing on your listed skills. Let's get started.",
    "TECHNICAL" := "Great, let's move on to some technical questions.",
    "CODING" := "Excellent. Now let's move on to our coding round.",
    "CONCLUSION" := "Thanks for walking me through that. We're almost at the end of our session.",
    "FEEDBACK" := "Thank you for your questions. I can now provide some feedback on our session."
  ]

  /** `get_initial_message(phase)`: `messages.get(phase, "")`. */
  function GetInitialMessage(key: string): (m: string)
  {
    if key in InitialMessages then InitialMessages[key] else ""
  }

  /** Every phase has a non-empty greeting, and the empty string comes back
      exactly for keys that are not phases. */
  lemma InitialMessageTotal(key: string)
    ensures GetInitialMessage(key) != "" <==> FromValue(key).Some?
  {
  }

  /** The module-level `sessions` dict. Sessions are values here, so a
      handler that changes `session.phase` in place is a store update of
      that one entry. */
  class SessionStore {
    var sessions: map<string, Session>

    constructor ()
      ensures sessions == map[]
    {
      sessions := map[];
    }

    /** `create_session`: a fresh session under `clientId`, replacing any
        earlier one; the fresh session is returned. */
    method CreateSession(clientId: string) returns (s: Session)
      modifies this
      ensures s == NewSession()
      ensures sessions == old(sessions)[clientId := s]
    {
      sessions := sessions[clientId := NewSession()];
      s := sessions[clientId];
    }

    /** `get_session`: the stored session, or None; nothing changes. */
    method GetSession(clientId: string) returns (r: Option<Session>)
      ensures r.Some? <==> clientId in sessions
      ensures r.Some? ==> r.value == sessions[clientId]
    {
      if clientId in sessions {
        r := Some(sessions[clientId]);
      } else {
        r := None;
      }
    }

    /** `advance_phase`: the session of `clientId` moves to the next phase
        in declaration order and that phase is returned; at FEEDBACK the
        `IndexError` is caught and the phase is kept and returned. For an
        unknown client `get_session` yields None and reading `.phase` raises;
        that outcome is `None` here and nothing changes. Only the entry of
        `clientId` is touched. */
    method AdvancePhase(clientId: string) returns (r: Option<Phase>)
      modifies this
      ensures clientId !in old(sessions) ==> r == None && sessions == old(sessions)
      ensures clientId in old(sessions) ==>
        && r == Some(NextPhase(old(sessions)[clientId].phase))
        && sessions == old(sessions)[clientId := old(sessions)[clientId].(phase := r.value)]
    {
      var found := GetSession(clientId);
      if found.None? {
        return None;
      }
      var session := found.value;
      var currentPhase := session.phase;
      var phaseOrder := AllPhases;
      var currentIndex := Index(currentPhase);
      if currentIndex + 1 < |phaseOrder| {
        var nextPhase := phaseOrder[currentIndex + 1];
        sessions := sessions[clientId := session.(phase := nextPhase)];
        return Some(nextPhase);
      }
      return Some(currentPhase);
    }
  }
}
