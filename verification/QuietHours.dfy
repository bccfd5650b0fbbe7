/** Quiet-hour arithmetic (apps/server/src/notification-logic.ts).
    Instants are milliseconds since the epoch; a time zone is a fixed offset in minutes. */
module QuietHours {
  import opened Wrappers

  const DAY: int := 1440
  const MINUTE_MS: int := 60_000
  const SEARCH_LIMIT: int := 36 * 60

  /** A wall-clock time, in minutes after midnight. */
  type ClockMinute = m: int | 0 <= m < 1440

  function LocalMinute(t: int, offset: int): (m: ClockMinute) {
    (t / MINUTE_MS + offset) % DAY
  }

  predicate InWindow(current: ClockMinute, start: ClockMinute, end: ClockMinute) {
    if start < end then start <= current < end else current >= start || current < end
  }

  predicate IsQuietTime(t: int, offset: int, start: Option<ClockMinute>, end: Option<ClockMinute>) {
    && start.Some? && end.Some? && start.value != end.value
    && InWindow(LocalMinute(t, offset), start.value, end.value)
  }

  /** Clockwise distance from one clock time to another. */
  function Ahead(from: ClockMinute, to: ClockMinute): (d: ClockMinute) {
    (to - from) % DAY
  }

  /** How many whole minutes after t the quiet period is over: the closed form of the search in NextQuietEnd. */
  function MinutesToQuietEnd(t: int, offset: int, start: ClockMinute, end: ClockMinute): int {
    var next := LocalMinute(t + MINUTE_MS, offset);
    if start != end && InWindow(next, start, end) then 1 + Ahead(next, end) else 1
  }

  function QuietEnd(t: int, offset: int, start: ClockMinute, end: ClockMinute): int {
    t + MinutesToQuietEnd(t, offset, start, end) * MINUTE_MS
  }

  lemma LocalMinuteAdvances(t: int, offset: int, d: int)
    ensures LocalMinute(t + d * MINUTE_MS, offset) == (LocalMinute(t, offset) + d) % DAY
  {
  }

  /** The instant at which minute `m` of the clock begins, in a zone, on a given local day. */
  function InstantOf(day: int, m: ClockMinute, offset: int): int {
    (day * 1440 + m - offset) * 60_000
  }

  /** The local clock shows a minute exactly during that minute of some local day. */
  lemma LocalMinuteIff(t: int, offset: int, m: ClockMinute)
    ensures LocalMinute(t, offset) == m <==> exists day :: InstantOf(day, m, offset) <= t < InstantOf(day, m, offset) + 60_000
  {
    var count := t / 60_000 + offset;
    assert (count - offset) * 60_000 <= t < (count - offset) * 60_000 + 60_000;
    if LocalMinute(t, offset) == m {
      assert count == count / 1440 * 1440 + m;
      assert InstantOf(count / 1440, m, offset) == (count - offset) * 60_000;
    }
    if day :| InstantOf(day, m, offset) <= t < InstantOf(day, m, offset) + 60_000 {
      assert t / 60_000 == day * 1440 + m - offset;
      assert count == day * 1440 + m;
    }
  }

  /** How long a window lasts, in minutes; a window whose end comes before its start ends the next day. */
  function WindowLength(start: ClockMinute, end: ClockMinute): int {
    if start < end then end - start else end + 1440 - start
  }

  /** An instant is quiet exactly when a window is set, has different ends, and the instant lies in it on some local
      day: from the minute it starts at up to the minute it ends at, past midnight if need be. */
  lemma QuietTimeIff(t: int, offset: int, start: Option<ClockMinute>, end: Option<ClockMinute>)
    ensures IsQuietTime(t, offset, start, end) <==>
      && start.Some? && end.Some? && start.value != end.value
      && exists day :: InstantOf(day, start.value, offset) <= t
                         < InstantOf(day, start.value, offset) + WindowLength(start.value, end.value) * 60_000
  {
    if start.Some? && end.Some? && start.value != end.value {
      var count := t / 60_000 + offset;
      var current, day := LocalMinute(t, offset), count / 1440;
      assert count == day * 1440 + current;
      assert (count - offset) * 60_000 <= t < (count - offset) * 60_000 + 60_000;
      if IsQuietTime(t, offset, start, end) {
        WindowHolds(t, offset, start.value, end.value, if start.value <= current then day else day - 1);
      }
      if d :| InstantOf(d, start.value, offset) <= t < InstantOf(d, start.value, offset) + WindowLength(start.value, end.value) * 60_000 {
        WithinWindow(t, offset, start.value, end.value, d);
      }
    }
  }

  lemma WindowHolds(t: int, offset: int, start: ClockMinute, end: ClockMinute, day: int)
    requires start != end && InWindow(LocalMinute(t, offset), start, end)
    requires var current, today := LocalMinute(t, offset), (t / 60_000 + offset) / 1440; day == if start <= current then today else today - 1
    ensures InstantOf(day, start, offset) <= t < InstantOf(day, start, offset) + WindowLength(start, end) * 60_000
  {
    var count := t / 60_000 + offset;
    var current := LocalMinute(t, offset);
    assert count == count / 1440 * 1440 + current;
    var into := count - (day * 1440 + start);
    assert 0 <= into < WindowLength(start, end);
    assert InstantOf(day, start, offset) == (count - into - offset) * 60_000;
  }

  lemma WithinWindow(t: int, offset: int, start: ClockMinute, end: ClockMinute, day: int)
    requires start != end
    requires InstantOf(day, start, offset) <= t < InstantOf(day, start, offset) + WindowLength(start, end) * 60_000
    ensures InWindow(LocalMinute(t, offset), start, end)
  {
    var count := t / 60_000 + offset;
    var into := count - (day * 1440 + start);
    assert 0 <= into < WindowLength(start, end) <= 1440;
    assert count == day * 1440 + (start + into);
    if start + into < 1440 {
      assert LocalMinute(t, offset) == start + into;
    } else {
      assert count == (day + 1) * 1440 + (start + into - 1440);
      assert LocalMinute(t, offset) == start + into - 1440;
    }
  }

  /** The quiet minutes are one arc of the 1440-minute circle: those less than the arc's length past its start. */
  lemma QuietIsOneArc(current: ClockMinute, start: ClockMinute, end: ClockMinute)
    requires start != end
    ensures InWindow(current, start, end) <==> Ahead(start, current) < Ahead(start, end)
  {
  }

  /** Walking d minutes on from a quiet minute stays quiet exactly while d falls short of the distance to the end. */
  lemma QuietUntilEnd(current: ClockMinute, start: ClockMinute, end: ClockMinute, d: nat)
    requires start != end && InWindow(current, start, end) && d <= Ahead(current, end)
    ensures InWindow((current + d) % DAY, start, end) <==> d < Ahead(current, end)
  {
  }

  lemma QuietAtOffset(t: int, offset: int, start: ClockMinute, end: ClockMinute, d: int)
    requires 1 <= d <= MinutesToQuietEnd(t, offset, start, end)
    ensures IsQuietTime(t + d * MINUTE_MS, offset, Some(start), Some(end)) <==> d < MinutesToQuietEnd(t, offset, start, end)
    ensures MinutesToQuietEnd(t, offset, start, end) <= DAY
  {
    var next := LocalMinute(t + MINUTE_MS, offset);
    LocalMinuteAdvances(t + MINUTE_MS, offset, d - 1);
    assert t + MINUTE_MS + (d - 1) * MINUTE_MS == t + d * MINUTE_MS;
    assert LocalMinute(t + d * MINUTE_MS, offset) == (next + (d - 1)) % DAY;
    if start != end && InWindow(next, start, end) {
      QuietUntilEnd(next, start, end, d - 1);
    }
  }

  /** QuietEnd is the first whole-minute step after t that is not quiet, at most a day away. */
  lemma QuietEndIsFirst(t: int, offset: int, start: ClockMinute, end: ClockMinute)
    ensures var n := MinutesToQuietEnd(t, offset, start, end);
      && 1 <= n <= DAY
      && !IsQuietTime(QuietEnd(t, offset, start, end), offset, Some(start), Some(end))
      && forall d :: 1 <= d < n ==> IsQuietTime(t + d * MINUTE_MS, offset, Some(start), Some(end))
  {
    var n := MinutesToQuietEnd(t, offset, start, end);
    QuietAtOffset(t, offset, start, end, n);
    forall d | 1 <= d < n
      ensures IsQuietTime(t + d * MINUTE_MS, offset, Some(start), Some(end))
    {
      QuietAtOffset(t, offset, start, end, d);
    }
  }

  /** From a quiet minute the wait is exactly the clockwise distance to the end of the window. */
  lemma WaitFromQuietMinute(t: int, offset: int, start: ClockMinute, end: ClockMinute)
    requires IsQuietTime(t, offset, Some(start), Some(end))
    ensures MinutesToQuietEnd(t, offset, start, end) == Ahead(LocalMinute(t, offset), end)
    ensures 1 <= Ahead(LocalMinute(t, offset), end)
  {
    var current := LocalMinute(t, offset);
    LocalMinuteAdvances(t, offset, 1);
    assert t + 1 * MINUTE_MS == t + MINUTE_MS;
    var next := LocalMinute(t + MINUTE_MS, offset);
    assert next == if current + 1 < DAY then current + 1 else 0;
    QuietIsOneArc(current, start, end);
    QuietUntilEnd(current, start, end, 0);
    QuietUntilEnd(current, start, end, 1);
    var e := Ahead(current, end);
    assert e == if current <= end then end - current else end - current + DAY;
    assert Ahead(next, end) == if next <= end then end - next else end - next + DAY;
  }

  /** The search loop of the source. Its 24-hour fallback is never reached. */
  method NextQuietEnd(t: int, offset: int, start: ClockMinute, end: ClockMinute) returns (r: int)
    ensures r == QuietEnd(t, offset, start, end)
  {
    QuietEndIsFirst(t, offset, start, end);
    ghost var n := MinutesToQuietEnd(t, offset, start, end);
    for d := 1 to SEARCH_LIMIT + 1
      invariant d <= n
    {
      var candidate := t + d * MINUTE_MS;
      QuietAtOffset(t, offset, start, end, d);
      if !IsQuietTime(candidate, offset, Some(start), Some(end)) {
        return candidate;
      }
    }
    assert false;
    r := t + DAY * MINUTE_MS;
  }
}
