/**
 * The logic of lib/utils.ts: the relative-time label of a timestamp and the
 * anonymous session id kept in the browser's storage.
 */
module Utils {
  import opened Strings

  const MinuteMs: nat := 60000
  const HourMs: nat := 3600000
  const DayMs: nat := 86400000

  /**
   * How long ago something happened, by the first bucket that fits. The
   * counts are `Math.floor(diff / unit)`; Dafny's `/` by a positive divisor
   * is floor division as well, negative differences included.
   */
  datatype Age = JustNow | MinutesAgo(n: nat) | HoursAgo(n: nat) | DaysAgo(n: nat) | Older

  function AgeOf(diffMs: int): (a: Age)
    ensures a == JustNow <==> diffMs < MinuteMs
    ensures a.MinutesAgo? ==> 1 <= a.n < 60 && a.n * MinuteMs <= diffMs < (a.n + 1) * MinuteMs
    ensures a.HoursAgo? ==> 1 <= a.n < 24 && a.n * HourMs <= diffMs < (a.n + 1) * HourMs
    ensures a.DaysAgo? ==> 1 <= a.n < 7 && a.n * DayMs <= diffMs < (a.n + 1) * DayMs
    ensures a == Older <==> diffMs >= 7 * DayMs
  {
    var mins, hours, days := diffMs / MinuteMs, diffMs / HourMs, diffMs / DayMs;
    if mins < 1 then JustNow
    else if mins < 60 then MinutesAgo(mins)
    else if hours < 24 then HoursAgo(hours)
    else if days < 7 then DaysAgo(days)
    else Older
  }

  /** The buckets follow one another: a later moment never gets a smaller bucket. */
  function Rank(a: Age): nat
  {
    match a
    case JustNow => 0
    case MinutesAgo(_) => 1
    case HoursAgo(_) => 2
    case DaysAgo(_) => 3
    case Older => 4
  }

  lemma AgeMonotone(d1: int, d2: int)
    requires d1 <= d2
    ensures Rank(AgeOf(d1)) <= Rank(AgeOf(d2))
    ensures AgeOf(d1).MinutesAgo? && AgeOf(d2).MinutesAgo? ==> AgeOf(d1).n <= AgeOf(d2).n
    ensures AgeOf(d1).HoursAgo? && AgeOf(d2).HoursAgo? ==> AgeOf(d1).n <= AgeOf(d2).n
    ensures AgeOf(d1).DaysAgo? && AgeOf(d2).DaysAgo? ==> AgeOf(d1).n <= AgeOf(d2).n
  {
  }

  /**
   * `formatRelativeTime(date)` at time `nowMs`, for a date at `thenMs`;
   * `formatted` is what `formatDate(date)` gives for dates a week or more
   * in the past.
   */
  function FormatRelativeTime(nowMs: int, thenMs: int, formatted: string): (r: string)
    ensures thenMs > nowMs - MinuteMs ==> r == "Just now"
    ensures nowMs - thenMs >= 7 * DayMs ==> r == formatted
  {
    match AgeOf(nowMs - thenMs)
    case JustNow => "Just now"
    case MinutesAgo(n) => NatToDecimal(n) + "m ago"
    case HoursAgo(n) => NatToDecimal(n) + "h ago"
    case DaysAgo(n) => NatToDecimal(n) + "d ago"
    case Older => formatted
  }

  /** The labels under a week carry the bucket's count in decimal and its unit. */
  lemma FormatRelativeTimeLabels(nowMs: int, thenMs: int, formatted: string)
    requires nowMs - thenMs < 7 * DayMs
    ensures var a, r := AgeOf(nowMs - thenMs), FormatRelativeTime(nowMs, thenMs, formatted);
      && (a.MinutesAgo? ==> r == NatToDecimal(a.n) + "m ago")
      && (a.HoursAgo? ==> r == NatToDecimal(a.n) + "h ago")
      && (a.DaysAgo? ==> r == NatToDecimal(a.n) + "d ago")
      && (a != JustNow ==> |r| >= 5 && r[|r| - 4..] == " ago")
  {
  }

  // ------------------------------------------------------------ session id

  const SessionKey := "nectar-session-id"

  /** `session-${Date.now()}-${random base-36 digits}`. */
  function NewSessionId(nowMs: nat, randomPart: string): (r: string)
    ensures "session-" <= r && r != ""
  {
    "session-" + NatToDecimal(nowMs) + "-" + randomPart
  }

  /** The browser side of the session id: whether there is a `window`, and `localStorage`. */
  class Browser {
    const hasWindow: bool
    var storage: map<string, string>

    constructor(hasWindow: bool, storage: map<string, string>)
      ensures this.hasWindow == hasWindow && this.storage == storage
    {
      this.hasWindow := hasWindow;
      this.storage := storage;
    }

    /**
     * `getSessionId()`: "server" without a window; otherwise the stored id
     * when there is a non-empty one, else a new id that is stored. In a
     * browser the id returned is then the stored one, so the next call
     * returns it again.
     */
    method GetSessionId(nowMs: nat, randomPart: string) returns (id: string)
      modifies this
      ensures !hasWindow ==> id == "server" && storage == old(storage)
      ensures hasWindow && SessionKey in old(storage) && old(storage)[SessionKey] != "" ==>
                id == old(storage)[SessionKey] && storage == old(storage)
      ensures hasWindow && !(SessionKey in old(storage) && old(storage)[SessionKey] != "") ==>
                id == NewSessionId(nowMs, randomPart) && storage == old(storage)[SessionKey := id]
      ensures hasWindow ==> id != "" && SessionKey in storage && storage[SessionKey] == id
    {
      if !hasWindow {
        return "server";
      }
      if SessionKey in storage && storage[SessionKey] != "" {
        id := storage[SessionKey];
      } else {
        id := NewSessionId(nowMs, randomPart);
        storage := storage[SessionKey := id];
      }
    }

    /** Two calls in a row give the same id, whatever the clock and randomness do. */
    method GetSessionIdTwice(now1: nat, random1: string, now2: nat, random2: string)
      returns (first: string, second: string)
      modifies this
      ensures first == second
      ensures hasWindow ==> SessionKey in storage && storage[SessionKey] == first
    {
      first := GetSessionId(now1, random1);
      second := GetSessionId(now2, random2);
    }
  }
}
