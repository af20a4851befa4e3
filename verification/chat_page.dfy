/** The chat page's composer and its badges: the send guard, the status dot colour
    and the room icon. Sending itself only clears the field. */
module ChatPage {
  import opened JsString

  /** The selected room and the message being typed. */
  datatype Composer = Composer(selectedRoom: string, message: string)

  /** `useState('general')` and `useState('')`. */
  const Initial: Composer := Composer("general", "")

  /** The Send button's `disabled`: the message trims to nothing. */
  predicate SendDisabled(message: string) {
    Trim(message) == ""
  }

  /** `handleSendMessage`: a blank message is ignored; any other message is sent and
      the field is cleared. The flag says whether it was sent. */
  function HandleSendMessage(c: Composer): (r: (Composer, bool))
    ensures r.1 <==> !AllSpace(c.message)
    ensures r.1 ==> r.0 == c.(message := "")
    ensures !r.1 ==> r.0 == c
  {
    TrimEmptyIff(c.message);
    if Trim(c.message) == "" then (c, false) else (c.(message := ""), true)
  }

  /** Submitting sends exactly when the button is enabled, and a cleared field
      disables the button. */
  lemma SubmitAgreesWithButton(c: Composer)
    ensures HandleSendMessage(c).1 <==> !SendDisabled(c.message)
    ensures SendDisabled(HandleSendMessage(c).0.message) || !HandleSendMessage(c).1
    ensures !HandleSendMessage(HandleSendMessage(c).0).1
  {
    TrimEmptyIff(c.message);
    TrimEmptyIff("");
  }

  /** Clicking a room selects it and keeps the draft. */
  function SelectRoom(c: Composer, roomId: string): (r: Composer)
    ensures r.selectedRoom == roomId && r.message == c.message
  {
    c.(selectedRoom := roomId)
  }

  /** `getStatusColor`. */
  function StatusColor(status: string): (r: string)
    ensures r == "bg-gray-500" <==> status !in {"online", "away", "busy"}
  {
    if status == "online" then "bg-green-500"
    else if status == "away" then "bg-yellow-500"
    else if status == "busy" then "bg-red-500"
    else "bg-gray-500"
  }

  /** The three known statuses get three different colours. */
  lemma StatusColorsDistinct(a: string, b: string)
    requires a in {"online", "away", "busy"} && b in {"online", "away", "busy"}
    ensures StatusColor(a) == StatusColor(b) <==> a == b
  {
  }

  const SpeechBalloon: string := "\U{1F4AC}"
  const BustsInSilhouette: string := "\U{1F465}"
  const Books: string := "\U{1F4DA}"

  /** `getRoomIcon`. */
  function RoomIcon(kind: string): (r: string)
    ensures r == SpeechBalloon <==> kind != "cohort" && kind != "course"
  {
    if kind == "general" then SpeechBalloon
    else if kind == "cohort" then BustsInSilhouette
    else if kind == "course" then Books
    else SpeechBalloon
  }

  /** Cohort and course rooms get their own icons; every other kind shares the
      general room's. */
  lemma RoomIconClasses(a: string, b: string)
    ensures RoomIcon(a) == RoomIcon(b) <==>
      a == b || (a !in {"cohort", "course"} && b !in {"cohort", "course"})
  {
  }
}
