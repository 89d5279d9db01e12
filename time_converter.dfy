/** Timestamp arithmetic of the booking handler: the reminder instant, the
    lead-time gate and the ISO-8601 "Z" rewrite of the reminder instant.

    Instants are integers counting seconds since the epoch in UTC; the local
    to UTC conversion done by the timezone library is a parameter of the
    booking module, not part of this one. */
module TimeConverter {

  /** Seconds since the epoch, UTC. */
  type Instant = int

  /** The reminder goes out this long before the appointment: 3 hours. */
  const ReminderOffset: int := 3 * 60 * 60

  /** Minimum distance between "now" and the appointment: 3 hours 5 minutes. */
  const LeadTime: int := 3 * 60 * 60 + 5 * 60

  /** The reminder instant of an appointment at `utcAppt`. */
  function Reminder(utcAppt: Instant): Instant {
    utcAppt - ReminderOffset
  }

  /** The first and the last whole second a Python `datetime` can hold:
      0001-01-01T00:00:00 and 9999-12-31T23:59:59 UTC. */
  const MinInstant: int := -62135596800
  const MaxInstant: int := 253402300799

  /** A datetime value outside this range raises `OverflowError`. */
  predicate Representable(t: Instant) {
    MinInstant <= t <= MaxInstant
  }

  /** The three datetime values the handler computes before any outbound call
      stay representable: the UTC appointment, the reminder and the
      appointment minus the lead time. */
  predicate InDatetimeRange(utcAppt: Instant) {
    Representable(utcAppt) && Representable(Reminder(utcAppt)) && Representable(utcAppt - LeadTime)
  }

  /** The datetime range reduces to one interval of UTC appointments, and
      the lead-time subtraction can overflow where the reminder subtraction
      does not: an appointment in the first 3h05m of year 1 is out of range. */
  lemma InDatetimeRangeInterval(utcAppt: Instant)
    ensures InDatetimeRange(utcAppt) <==> MinInstant + 11100 <= utcAppt <= MaxInstant
    ensures Representable(Reminder(MinInstant + 10800)) && !InDatetimeRange(MinInstant + 10800)
  {
  }

  /** The lead-time gate: the appointment minus 3h05m lies strictly before now. */
  predicate TooSoon(utcAppt: Instant, now: Instant) {
    utcAppt - LeadTime < now
  }

  /** The appointment is rejected exactly when it is less than 3h05m ahead of
      now; one exactly 3h05m ahead passes the gate. */
  lemma TooSoonBoundary(utcAppt: Instant, now: Instant)
    ensures TooSoon(utcAppt, now) <==> utcAppt < now + 11100
    ensures !TooSoon(now + 11100, now)
    ensures TooSoon(now + 11099, now)
  {
  }

  /** An appointment that passes the gate has its reminder at least five
      minutes after now, so the reminder is never scheduled in the past. */
  lemma AcceptedReminderInFuture(utcAppt: Instant, now: Instant)
    requires !TooSoon(utcAppt, now)
    ensures Reminder(utcAppt) >= now + 5 * 60
    ensures utcAppt - Reminder(utcAppt) == 10800
  {
  }

  /** Python's `s[:-n]`: everything but the last `n` characters, or the empty
      string when `s` is shorter than `n`; `s[:-0]` is `s[:0]`, also empty. */
  function DropLast(s: string, n: nat): (r: string)
    ensures |r| == if 0 < n <= |s| then |s| - n else 0
    ensures 0 < n <= |s| ==> r + s[|s| - n..] == s
  {
    if 0 < n <= |s| then s[..|s| - n] else []
  }

  /** The UTC offset that `isoformat` prints for an aware UTC datetime. */
  const UtcOffset: string := "+00:00"

  predicate EndsWithUtcOffset(s: string) {
    |s| >= |UtcOffset| && s[|s| - |UtcOffset|..] == UtcOffset
  }

  /** The reminder timestamp handed to the messaging service: the last six
      characters of the ISO string are dropped and "Z" is appended. */
  function IsoZ(iso: string): (r: string)
    ensures |r| > 0 && r[|r| - 1] == 'Z'
    ensures |iso| >= 6 ==> |r| == |iso| - 5 && r[..|r| - 1] == iso[..|iso| - 6]
    ensures |iso| < 6 ==> r == "Z"
  {
    DropLast(iso, 6) + "Z"
  }

  /** Inverse of IsoZ on strings that end with the UTC offset: the "Z"
      marker is replaced by the offset again. */
  function WithUtcOffset(z: string): (r: string)
    requires |z| > 0 && z[|z| - 1] == 'Z'
    ensures EndsWithUtcOffset(r)
    ensures |r| == |z| + 5
  {
    z[..|z| - 1] + UtcOffset
  }

  /** On an `isoformat` string that carries the "+00:00" suffix, IsoZ
      replaces that suffix with "Z" and keeps everything before it. */
  lemma IsoZReplacesOffset(prefix: string)
    ensures IsoZ(prefix + UtcOffset) == prefix + "Z"
  {
    assert (prefix + UtcOffset)[..|prefix|] == prefix;
  }

  /** Round trip: restoring the offset after IsoZ gives back the original
      string whenever it ended in "+00:00". */
  lemma IsoZRoundTrip(iso: string)
    requires EndsWithUtcOffset(iso)
    ensures WithUtcOffset(IsoZ(iso)) == iso
  {
    var prefix := iso[..|iso| - 6];
    assert iso == prefix + UtcOffset;
    IsoZReplacesOffset(prefix);
    assert IsoZ(iso)[..|IsoZ(iso)| - 1] == prefix;
  }

  /** IsoZ loses nothing on strings ending in "+00:00": two such strings
      with the same rewrite are the same string. */
  lemma IsoZInjective(a: string, b: string)
    requires EndsWithUtcOffset(a) && EndsWithUtcOffset(b)
    requires IsoZ(a) == IsoZ(b)
    ensures a == b
  {
    IsoZRoundTrip(a);
    IsoZRoundTrip(b);
  }
}
