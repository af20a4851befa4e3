/** The cohort page: the colour of a student's progress badge, the last-active
    label and the mentor-only Schedule Event button. */
module CohortsPage {
  import opened Wrappers
  import opened JsString
  import opened TimeAgo
  import opened Identity
  import M = Models

  const ActiveNow: string := "Active now"

  /** `getProgressColor`: green from 80, yellow from 60, red below. */
  function ProgressColor(progress: int): (r: string)
    ensures r == "text-green-600 bg-green-100" <==> progress >= 80
    ensures r == "text-yellow-600 bg-yellow-100" <==> 60 <= progress < 80
    ensures r == "text-red-600 bg-red-100" <==> progress < 60
  {
    if progress >= 80 then "text-green-600 bg-green-100"
    else if progress >= 60 then "text-yellow-600 bg-yellow-100"
    else "text-red-600 bg-red-100"
  }

  /** Red, yellow and green in increasing order. */
  function ColorRank(color: string): nat {
    if color == "text-green-600 bg-green-100" then 2
    else if color == "text-yellow-600 bg-yellow-100" then 1
    else 0
  }

  /** More progress never shows a worse colour. */
  lemma ProgressColorMonotone(p: int, q: int)
    requires p <= q
    ensures ColorRank(ProgressColor(p)) <= ColorRank(ProgressColor(q))
  {
  }

  /** The page's `timeAgo`: "Active now" exactly when less than an hour has passed,
      otherwise a label whose number is the whole hours, or past a day the whole
      days, elapsed. */
  function LastActive(nowMs: int, thenMs: int): (r: string)
    ensures r == ActiveNow <==> nowMs - thenMs < HourMs
    ensures nowMs - thenMs >= HourMs ==>
      ParseInt(Some(r)) == Some(if nowMs - thenMs < DayMs then (nowMs - thenMs) / HourMs else (nowMs - thenMs) / DayMs)
  {
    RecentIff(nowMs, thenMs, ActiveNow);
    AgoReadsBack(nowMs, thenMs, ActiveNow);
    Ago(nowMs, thenMs, ActiveNow)
  }

  /** `user?.role === UserRole.MENTOR`: the Schedule Event button is rendered. */
  predicate ScheduleEventShown(user: Option<M.User>) {
    user.Some? && user.value.role == Mentor
  }

  /** The button is shown exactly to a present user whose role string is `mentor`:
      not to admins, although they pass every other staff check, nor to students,
      other roles or a missing user. */
  lemma ScheduleEventOnlyForMentors(user: Option<M.User>)
    ensures ScheduleEventShown(user) <==> user.Some? && RoleString(user.value.role) == "mentor"
    ensures user.Some? && user.value.role == Admin ==> !ScheduleEventShown(user)
    ensures user.None? ==> !ScheduleEventShown(user)
  {
    if user.Some? {
      RoleStringRoundTrip(user.value.role, "mentor");
    }
  }
}
