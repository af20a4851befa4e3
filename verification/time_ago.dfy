/** `timeAgo`, which the cohort and admin pages each define: the whole hours since a
    timestamp, floored, shown as hours under a day and as whole days after. Both
    instants are milliseconds since the epoch; the only difference between the two
    pages is the text for less than an hour. */
module TimeAgo {
  import opened Wrappers
  import opened JsString

  const HourMs: nat := 3600000
  const DayMs: nat := 86400000

  /** `Math.floor(diff / (1000 * 60 * 60))`; `/` on `int` with a positive divisor
      rounds toward negative infinity, as `Math.floor` of the quotient does. */
  function HoursSince(nowMs: int, thenMs: int): (h: int)
    ensures h * HourMs <= nowMs - thenMs < (h + 1) * HourMs
  {
    (nowMs - thenMs) / HourMs
  }

  /** The label for the time between `thenMs` and `nowMs`, `recent` under an hour. */
  function Ago(nowMs: int, thenMs: int, recent: string): (r: string)
    ensures nowMs - thenMs < HourMs ==> r == recent
    ensures HourMs <= nowMs - thenMs < DayMs ==>
      exists n: nat :: 1 <= n < 24 && n * HourMs <= nowMs - thenMs < (n + 1) * HourMs && r == NatToString(n) + "h ago"
    ensures DayMs <= nowMs - thenMs ==>
      exists d: nat :: 1 <= d && d * DayMs <= nowMs - thenMs < (d + 1) * DayMs && r == NatToString(d) + "d ago"
  {
    var h := HoursSince(nowMs, thenMs);
    if h < 1 then recent
    else if h < 24 then NatToString(h) + "h ago"
    else
      DaysFromHours(nowMs - thenMs, h);
      NatToString(h / 24) + "d ago"
  }

  /** Flooring to hours and then to days is flooring to days. */
  lemma DaysFromHours(diff: int, h: int)
    requires h >= 24
    requires h * HourMs <= diff < (h + 1) * HourMs
    ensures (h / 24) * DayMs <= diff < (h / 24 + 1) * DayMs
  {
    var d := h / 24;
    assert 24 * d <= h < 24 * d + 24;
    assert d * DayMs == (24 * d) * HourMs;
    assert (d + 1) * DayMs == (24 * d + 24) * HourMs;
  }

  lemma EndsInAgo(num: string, unit: string)
    requires |unit| == 5 && unit[1..] == " ago"
    ensures |num + unit| >= 4 && (num + unit)[|num + unit| - 4..] == " ago"
  {
    assert (num + unit)[|num + unit| - 4..] == unit[1..];
  }

  /** Whether a label is the under-an-hour one is decided by the time alone, as long
      as the text chosen for it does not itself end in " ago". */
  lemma RecentIff(nowMs: int, thenMs: int, recent: string)
    requires !(|recent| >= 4 && recent[|recent| - 4..] == " ago")
    ensures Ago(nowMs, thenMs, recent) == recent <==> nowMs - thenMs < HourMs
  {
    var h := HoursSince(nowMs, thenMs);
    if h >= 24 {
      assert Ago(nowMs, thenMs, recent) == NatToString(h / 24) + "d ago";
      EndsInAgo(NatToString(h / 24), "d ago");
    } else if h >= 1 {
      assert Ago(nowMs, thenMs, recent) == NatToString(h) + "h ago";
      EndsInAgo(NatToString(h), "h ago");
    }
  }

  /** `parseInt` of a label reads back the count it shows. */
  lemma ParseIntOfCount(n: nat, unit: string)
    requires |unit| > 0 && unit[0] in {'h', 'd'}
    ensures ParseInt(Some(NatToString(n) + unit)) == Some(n)
  {
    var s := NatToString(n);
    var t := s + unit;
    DigitsValueOfNatToString(n);
    assert t[..|s|] == s;
    assert t[|s|] == unit[0];
    ParseIntOfDecimalPrefix(t, |s|);
  }

  /** Reading a label back: the number in an hours label is the whole hours elapsed,
      and the number in a days label the whole days elapsed. */
  lemma AgoReadsBack(nowMs: int, thenMs: int, recent: string)
    ensures HourMs <= nowMs - thenMs < DayMs ==>
      ParseInt(Some(Ago(nowMs, thenMs, recent))) == Some((nowMs - thenMs) / HourMs)
    ensures DayMs <= nowMs - thenMs ==>
      ParseInt(Some(Ago(nowMs, thenMs, recent))) == Some((nowMs - thenMs) / DayMs)
  {
    var diff := nowMs - thenMs;
    var h := HoursSince(nowMs, thenMs);
    if h >= 1 && h < 24 {
      ParseIntOfCount(h, "h ago");
    } else if h >= 24 {
      DaysFromHours(diff, h);
      ParseIntOfCount(h / 24, "d ago");
      assert diff / DayMs == h / 24;
    }
  }

  /** The recent bucket at its edges: a timestamp in the future and one 59 minutes
      old are both recent. */
  lemma RecentEdges(nowMs: int, recent: string)
    ensures Ago(nowMs, nowMs + 1000, recent) == recent
    ensures Ago(nowMs, nowMs - 59 * 60000, recent) == recent
  {
    assert HoursSince(nowMs, nowMs + 1000) == -1;
    assert HoursSince(nowMs, nowMs - 59 * 60000) == 0;
  }

  /** Between one hour and a day the label is the whole hours elapsed. */
  lemma AgoInHours(nowMs: int, thenMs: int, recent: string, h: nat)
    requires 1 <= h < 24 && HoursSince(nowMs, thenMs) == h
    ensures Ago(nowMs, thenMs, recent) == NatToString(h) + "h ago"
  {
  }

  lemma NatToStringOfSmall()
    ensures NatToString(1) == "1" && NatToString(23) == "23"
  {
    assert NatToString(2) == "2";
  }

  /** The hours bucket at its edges: one hour is "1h ago" and 23 hours 59 minutes is
      "23h ago". */
  lemma HourEdges(nowMs: int, recent: string)
    ensures Ago(nowMs, nowMs - HourMs, recent) == "1h ago"
    ensures Ago(nowMs, nowMs - (24 * HourMs - 60000), recent) == "23h ago"
  {
    NatToStringOfSmall();
    assert HoursSince(nowMs, nowMs - HourMs) == 1;
    AgoInHours(nowMs, nowMs - HourMs, recent, 1);
    assert HoursSince(nowMs, nowMs - (24 * HourMs - 60000)) == 23;
    AgoInHours(nowMs, nowMs - (24 * HourMs - 60000), recent, 23);
  }

  /** The days bucket starts at 24 hours, with "1d ago". */
  lemma DayEdge(nowMs: int, recent: string)
    ensures Ago(nowMs, nowMs - DayMs, recent) == "1d ago"
  {
    assert HoursSince(nowMs, nowMs - DayMs) == 24;
    NatToStringOfSmall();
  }
}
