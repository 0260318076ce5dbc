/** The page (frontend/src/App.jsx): the avatar's animation flags, which
    screen `interviewState` selects, and when the setup form is disabled;
    with how these follow the client's state machine. */
module App {
  import InterviewSocket

  /** The `AIAvatar` flags. 'Processing...' counts as thinking. */
  datatype AvatarFlags = AvatarFlags(isSpeaking: bool, isThinking: bool, isRecording: bool)

  /** At most one animation is on for any status, and each flag names
      the statuses that turn it on. */
  function Flags(status: string): (f: AvatarFlags)
    ensures !(f.isSpeaking && f.isThinking) && !(f.isSpeaking && f.isRecording) && !(f.isThinking && f.isRecording)
    ensures f.isThinking <==> status == "Thinking..." || status == "Processing..."
    ensures f.isSpeaking <==> status == "Speaking..."
    ensures f.isRecording <==> status == "Recording..."
  {
    AvatarFlags(status == "Speaking...", status == "Thinking..." || status == "Processing...", status == "Recording...")
  }

  /** The three screens. */
  datatype Screen = SetupScreen | InterviewScreen | FinishedScreen

  /** The screens rendered for an `interviewState`, each under its own
      guard: never two at once, exactly one for the three known states,
      none for any other, and each for its own state. */
  function Screens(interviewState: string): (r: set<Screen>)
    ensures |r| <= 1
    ensures |r| == 1 <==> interviewState in {"SETUP", "INTERVIEW", "FINISHED"}
    ensures SetupScreen in r <==> interviewState == "SETUP"
    ensures InterviewScreen in r <==> interviewState == "INTERVIEW"
    ensures FinishedScreen in r <==> interviewState == "FINISHED"
  {
    var r := (if interviewState == "SETUP" then {SetupScreen} else {})
      + (if interviewState == "INTERVIEW" then {InterviewScreen} else {})
      + (if interviewState == "FINISHED" then {FinishedScreen} else {});
    assert interviewState == "SETUP" ==> r == {SetupScreen};
    assert interviewState == "INTERVIEW" ==> r == {InterviewScreen};
    assert interviewState == "FINISHED" ==> r == {FinishedScreen};
    r
  }

  /** The setup form's `disabled` prop. */
  predicate FormDisabled(status: string)
  {
    status == "Setting up..."
  }

  /** The page opens on the setup screen with the form enabled. */
  lemma StartsOnSetup()
    ensures Screens(InterviewSocket.Initial.interviewState) == {SetupScreen}
    ensures !FormDisabled(InterviewSocket.Initial.status)
  {
    assert Screens("SETUP") == {SetupScreen};
  }

  /** Once the microphone is granted, the form stays disabled only when a
      socket already exists: otherwise `connect` replaces 'Setting up...'
      by 'Connecting...' at once. So a second submit after a setup request
      that threw (socket still open, status 'Error') leaves the form
      disabled: no audio goes out, and the socket is the old one, so no
      new `onopen` can send another setup request. */
  lemma FormDisabledAfterStart(c: InterviewSocket.Client)
    ensures FormDisabled(InterviewSocket.StartInterviewStep(c, true).status) <==> c.socket.Some?
    ensures !FormDisabled(InterviewSocket.StartInterviewStep(c, false).status)
    ensures c.socket.Some? ==> InterviewSocket.StartInterviewStep(c, true).sent == c.sent
    ensures c.socket.Some? ==> InterviewSocket.StartInterviewStep(c, true).socket == c.socket
  {
  }

  /** A socket close always lands on the finished screen. */
  lemma CloseFinishes(c: InterviewSocket.Client)
    ensures Screens(InterviewSocket.SocketCloseStep(c).interviewState) == {FinishedScreen}
  {
    assert Screens("FINISHED") == {FinishedScreen};
  }
}
