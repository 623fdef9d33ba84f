/** common/timewindow.py: messages that can wait go out between 08:00 and 22:00. */
module TimeWindow {
  import opened Calendar

  const WINDOW_START: nat := 8 * 3600
  const WINDOW_END: nat := 22 * 3600
  const RATING_DELAY: nat := 30 * 60

  predicate InWindow(t: Time) {
    WINDOW_START <= t % DAY < WINDOW_END
  }

  lemma NextWindow(t: Time, u: Time)
    requires t <= u && InWindow(u)
    ensures t % DAY < WINDOW_START ==> DayStart(t) + WINDOW_START <= u
    ensures t % DAY >= WINDOW_END ==> DayStart(t + DAY) + WINDOW_START <= u
  {
    var d, e, x, y := t / DAY, u / DAY, t % DAY, u % DAY;
    assert t == d * DAY + x && u == e * DAY + y;
    assert DayStart(t) == d * DAY && DayStart(t + DAY) == d * DAY + DAY;
    assert d <= e;
    hide DayStart;
  }

  /** Eight in the morning, today where it is still to come, else tomorrow. */
  lemma WindowsOpen(t: Time)
    ensures InWindow(DayStart(t) + WINDOW_START) && InWindow(DayStart(t + DAY) + WINDOW_START)
    ensures t % DAY < WINDOW_START ==> t <= DayStart(t) + WINDOW_START
    ensures t <= DayStart(t + DAY) + WINDOW_START
    ensures t % DAY < WINDOW_START ==> forall u: Time :: t <= u && InWindow(u) ==> DayStart(t) + WINDOW_START <= u
    ensures t % DAY >= WINDOW_END ==> forall u: Time :: t <= u && InWindow(u) ==> DayStart(t + DAY) + WINDOW_START <= u
  {
    NextMidnight(t);
    StartOfWindow(t / DAY);
    StartOfWindow(t / DAY + 1);
    hide DayStart;
    forall u: Time | t <= u && InWindow(u)
      ensures t % DAY < WINDOW_START ==> DayStart(t) + WINDOW_START <= u
      ensures t % DAY >= WINDOW_END ==> DayStart(t + DAY) + WINDOW_START <= u
    {
      NextWindow(t, u);
    }
    hide InWindow;
  }

  lemma StartOfWindow(day: nat)
    ensures InWindow(day * DAY + WINDOW_START)
  {
  }

  lemma NextMidnight(t: Time)
    ensures DayStart(t) == t - t % 86400 && DayStart(t + DAY) == t - t % 86400 + 86400
    ensures DayStart(t) == t / DAY * DAY && DayStart(t + DAY) == (t / DAY + 1) * DAY
  {
  }

  /** `clamp_to_window`: the earliest time from `t` on that lies in the window. */
  function ClampToWindow(t: Time): (r: Time)
    ensures t <= r && InWindow(r)
    ensures forall u: Time :: t <= u && InWindow(u) ==> r <= u
  {
    WindowsOpen(t);
    if t % DAY < WINDOW_START then DayStart(t) + WINDOW_START
    else if t % DAY >= WINDOW_END then DayStart(t + DAY) + WINDOW_START
    else t
  }

  /** `rating_send_time` */
  function RatingSendTime(eta: Time): Time {
    ClampToWindow(eta + RATING_DELAY)
  }

  lemma ClampIdempotent(t: Time)
    ensures ClampToWindow(ClampToWindow(t)) == ClampToWindow(t)
    ensures ClampToWindow(t) == t <==> InWindow(t)
  {
  }

  lemma ClampMonotone(t: Time, u: Time)
    requires t <= u
    ensures ClampToWindow(t) <= ClampToWindow(u)
  {
  }

  /** In hours: the next moment at or after eight and before ten in the evening, today or tomorrow. */
  lemma ClampMeans(t: Time)
    ensures var r, hour := ClampToWindow(t), t % 86400 / 3600;
            && (8 <= hour < 22 ==> r == t)
            && (hour < 8 ==> r == t - t % 86400 + 8 * 3600)
            && (22 <= hour ==> r == t - t % 86400 + 86400 + 8 * 3600)
    ensures RatingSendTime(t) == ClampToWindow(t + 1800)
  {
    Hours(t % 86400);
    NextMidnight(t);
    hide DayStart;
  }

  lemma Hours(seconds: nat)
    ensures seconds / 3600 < 8 <==> seconds < 8 * 3600
    ensures seconds / 3600 < 22 <==> seconds < 22 * 3600
  {
  }

  /** A later arrival never asks for its rating earlier, and never less than half an hour after it. */
  lemma RatingFollowsEta(a: Time, b: Time)
    requires a <= b
    ensures RatingSendTime(a) <= RatingSendTime(b)
    ensures a + RATING_DELAY <= RatingSendTime(a) <= a + RATING_DELAY + 10 * 3600
  {
  }
}
