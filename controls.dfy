/** The start and end buttons (frontend/src/components/Controls.jsx): which
    of them is enabled, decided from the status string alone. */
module Controls {

  /** `isInterviewActive`: every status except the four resting ones. */
  predicate IsInterviewActive(status: string)
  {
    status != "Idle" && status != "Finished" && status != "Error" && status != "Connected"
  }

  /** The start button's `disabled`: while the interview is active, and
      once connected. */
  function StartDisabled(status: string): (r: bool)
    ensures !r <==> status == "Idle" || status == "Finished" || status == "Error"
  {
    IsInterviewActive(status) || status == "Connected"
  }

  /** The end button's `disabled`: whenever the interview is not active.
      The two buttons are never enabled together, and on 'Connected'
      neither is. */
  function EndDisabled(status: string): (r: bool)
    ensures r <==> status == "Idle" || status == "Finished" || status == "Error" || status == "Connected"
    ensures !r ==> StartDisabled(status)
    ensures status == "Connected" ==> r && StartDisabled(status)
  {
    !IsInterviewActive(status)
  }

  /** Statuses outside the four resting ones, such as the hook's
      'Processing...' or 'Error: Mic required', count as active: only the
      end button is enabled. */
  lemma OtherStatusesActive(status: string)
    requires status !in {"Idle", "Finished", "Error", "Connected"}
    ensures IsInterviewActive(status) && StartDisabled(status) && !EndDisabled(status)
  {
  }
}
