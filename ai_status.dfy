/** The status banner (frontend/src/components/AIStatus.jsx): which icon,
    text and text colour a status string shows. */
module AIStatus {

  /** The icon drawn before the text. */
  datatype Icon = NoIcon | ThinkingIcon | SpeakingIcon | ListeningIcon | RecordingDot

  /** What the banner shows; `colour` is the text-colour class. */
  datatype StatusView = StatusView(icon: Icon, text: string, colour: string)

  /** The banner's default text colour, kept unless a case replaces it. */
  const DefaultColour := "text-gray-300"

  /** The `switch` on the status: four statuses have their own view, every
      other one shows 'Initializing...' with no icon in the default colour. */
  function View(status: string): (v: StatusView)
    ensures v.icon == NoIcon <==> v.text == "Initializing..."
    ensures v.colour == DefaultColour <==> status != "Thinking..." && status != "Speaking..." && status != "Recording..."
  {
    if status == "Thinking..." then StatusView(ThinkingIcon, "AI is thinking...", "text-blue-400")
    else if status == "Speaking..." then StatusView(SpeakingIcon, "AI is speaking...", "text-green-400")
    else if status == "Listening..." then StatusView(ListeningIcon, "Ready for your response.", DefaultColour)
    else if status == "Recording..." then StatusView(RecordingDot, "Recording your answer...", "text-red-400")
    else StatusView(NoIcon, "Initializing...", DefaultColour)
  }

  /** Each status shows its own icon: two different views never share
      one, except the default. */
  lemma IconNamesStatus(s1: string, s2: string)
    requires View(s1).icon == View(s2).icon && View(s1).icon != NoIcon
    ensures s1 == s2
  {
  }

  /** Every status outside the four, the hook's 'Processing...',
      'Connected' and 'Idle' among them, falls to the default view. */
  lemma OtherStatusesInitializing(status: string)
    requires status !in {"Thinking...", "Speaking...", "Listening...", "Recording..."}
    ensures View(status) == StatusView(NoIcon, "Initializing...", DefaultColour)
  {
  }
}
