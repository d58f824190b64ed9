/**
 * The placeholder memories of app/memories/page.tsx: `generateMemories`
 * gives every companion one to three memories, made from a ring of ten
 * templates and dated a few hours apart, and lists them newest first.
 * `Math.random()` is a parameter: one draw per companion.
 */
module MemoriesPage {
  import opened Strings
  import opened Types
  import Sorting

  const Placeholder := "{name}"

  /** A template; its text is `before`, the single "{name}", then `after`. */
  datatype Template = Template(eventType: EventType, before: string, after: string, icon: string)

  function TemplateText(t: Template): string
  {
    t.before + Placeholder + t.after
  }

  const Templates: seq<Template> := [
    Template(ChatEvent, "You chatted with ", " for 20 minutes", "message-circle"),
    Template(Milestone, "", " remembered your favorite thing", "star"),
    Template(StoryView, "You viewed ", "'s story", "image"),
    Template(ChatEvent, "Deep conversation with ", "", "message-circle"),
    Template(Milestone, "7-day streak with ", "!", "flame"),
    Template(Milestone, "You and ", " shared 50 messages!", "party-popper"),
    Template(ChatEvent, "", " shared something special with you", "coffee"),
    Template(StoryView, "You viewed ", "'s new photos", "image"),
    Template(Milestone, "", " recommended you something", "book-open"),
    Template(ChatEvent, "Fun chat session with ", "", "gamepad-2")
  ]

  const HourMs: int := 3600000

  /** `Math.min(3, Math.floor(Math.random() * 3) + 1)`, the random number in [0, 1) being `draw`'s residue. */
  function MemoryCount(draw: nat): (n: nat)
    ensures 1 <= n <= 3
  {
    var n := draw % 3 + 1;
    if n < 3 then n else 3
  }

  /** Every count from 1 to 3 comes from some draw. */
  lemma EveryCountDrawn(n: nat)
    requires 1 <= n <= 3
    ensures MemoryCount(n - 1) == n
  {
  }

  /** How many hours before now memory `i` of the companion at index `k` is dated. */
  function HoursAgo(k: nat, i: nat): nat
  {
    k * 4 + i * 2 + 1
  }

  /** An older date for more hours ago. */
  lemma EarlierForMoreHours(nowMs: int, a: nat, b: nat)
    requires a <= b
    ensures nowMs - b * HourMs <= nowMs - a * HourMs
  {
  }

  /**
   * Memory `i` of the companion at index `k`. Its content is the template's
   * text around the name, with the name's `$` patterns expanded as
   * `replace` expands them; `MemoryAtSpec` shows that this is what replacing
   * the first "{name}" of the template text gives.
   */
  function MemoryAt(companion: Companion, k: nat, i: nat, nowMs: int): Memory
  {
    var t := Templates[(k + i) % |Templates|];
    Memory(
      "mem-" + companion.id + "-" + NatToDecimal(i),
      "user1",
      companion.id,
      t.eventType,
      t.before + Substitution(companion.name, Placeholder, t.before, t.after) + t.after,
      t.icon,
      nowMs - HoursAgo(k, i) * HourMs)
  }

  /**
   * Memory `i` of companion `k` belongs to that companion, comes from
   * template `(k + i) mod 10` with the name in place of "{name}" (literally
   * when the name has no "$"), and is dated `4k + 2i + 1` hours before now.
   */
  lemma MemoryAtSpec(companion: Companion, k: nat, i: nat, nowMs: int)
    ensures var m := MemoryAt(companion, k, i, nowMs);
      var t := Templates[(k + i) % 10];
      && m.id == "mem-" + companion.id + "-" + NatToDecimal(i)
      && m.companionId == companion.id
      && m.eventType == t.eventType && m.icon == t.icon
      && m.content == ReplaceFirst(TemplateText(t), Placeholder, companion.name)
      && ('$' !in companion.name ==> m.content == t.before + companion.name + t.after)
      && m.createdAt == nowMs - (4 * k + 2 * i + 1) * HourMs
  {
    var t := Templates[(k + i) % 10];
    PlaceholderFirst((k + i) % 10);
    ReplaceFirstAfter(t.before, Placeholder, t.after, companion.name);
    if '$' !in companion.name {
      SubstitutionPlain(companion.name, Placeholder, t.before, t.after);
    }
  }

  /** A companion named "$&" gets the placeholder back: `$&` stands for the matched "{name}". */
  lemma DollarNameKeepsPlaceholder(companion: Companion, nowMs: int)
    requires companion.name == "$&"
    ensures MemoryAt(companion, 0, 0, nowMs).content == "You chatted with {name} for 20 minutes"
  {
    SubstitutionPatterns(Placeholder, "You chatted with ", " for 20 minutes");
  }

  /** No template has a '{' before its placeholder, so the placeholder is the first occurrence. */
  lemma PlaceholderFirst(j: nat)
    requires j < |Templates|
    ensures '{' !in Templates[j].before && Placeholder != "" && Placeholder[0] == '{'
  {
    BeforesHaveNoBrace();
    if j == 0 { assert Templates[0].before == "You chatted with "; }
    else if j == 1 { assert Templates[1].before == ""; }
    else if j == 2 { assert Templates[2].before == "You viewed "; }
    else if j == 3 { assert Templates[3].before == "Deep conversation with "; }
    else if j == 4 { assert Templates[4].before == "7-day streak with "; }
    else if j == 5 { assert Templates[5].before == "You and "; }
    else if j == 6 { assert Templates[6].before == ""; }
    else if j == 7 { assert Templates[7].before == "You viewed "; }
    else if j == 8 { assert Templates[8].before == ""; }
    else { assert Templates[9].before == "Fun chat session with "; }
  }

  lemma BeforesHaveNoBrace()
    ensures '{' !in "You chatted with " && '{' !in "You viewed " && '{' !in "Deep conversation with "
    ensures '{' !in "7-day streak with " && '{' !in "You and " && '{' !in "Fun chat session with "
    ensures Placeholder[0] == '{'
  {
  }

  /** The first `n` memories of the companion at index `k`. */
  function CompanionMemories(companion: Companion, k: nat, n: nat, nowMs: int): (r: seq<Memory>)
    ensures |r| == n
    ensures forall i :: 0 <= i < n ==> r[i] == MemoryAt(companion, k, i, nowMs)
  {
    seq(n, i requires 0 <= i => MemoryAt(companion, k, i, nowMs))
  }

  lemma CompanionMemoriesSnoc(companion: Companion, k: nat, i: nat, nowMs: int)
    ensures CompanionMemories(companion, k, i + 1, nowMs)
         == CompanionMemories(companion, k, i, nowMs) + [MemoryAt(companion, k, i, nowMs)]
  {
    var a := CompanionMemories(companion, k, i + 1, nowMs);
    var b := CompanionMemories(companion, k, i, nowMs) + [MemoryAt(companion, k, i, nowMs)];
    forall x | 0 <= x < |a| ensures a[x] == b[x] {
    }
  }

  function CreatedAt(m: Memory): int { m.createdAt }

  /** The memories pushed for the first `j` companions, in the order they are pushed. */
  function Pushed(companions: seq<Companion>, draws: seq<nat>, nowMs: int, j: nat): seq<Memory>
    requires j <= |companions| == |draws|
  {
    if j == 0 then []
    else Pushed(companions, draws, nowMs, j - 1)
         + CompanionMemories(companions[j - 1], j - 1, MemoryCount(draws[j - 1]), nowMs)
  }

  /** Between one and three memories per companion. */
  lemma {:induction false} PushedCount(companions: seq<Companion>, draws: seq<nat>, nowMs: int, j: nat)
    requires j <= |companions| == |draws|
    ensures j <= |Pushed(companions, draws, nowMs, j)| <= 3 * j
  {
    if j > 0 {
      PushedCount(companions, draws, nowMs, j - 1);
    }
  }

  /** Every memory of every one of the first `j` companions is pushed. */
  lemma PushedHolds(companions: seq<Companion>, draws: seq<nat>, nowMs: int, j: nat, k: nat, i: nat)
    requires j <= |companions| == |draws|
    requires k < j && i < MemoryCount(draws[k])
    ensures MemoryAt(companions[k], k, i, nowMs) in Pushed(companions, draws, nowMs, j)
  {
    var own := CompanionMemories(companions[k], k, MemoryCount(draws[k]), nowMs);
    assert own[i] == MemoryAt(companions[k], k, i, nowMs);
    OwnPushed(companions, draws, nowMs, j, k, own[i]);
  }

  /** A memory of one of the first `j` companions' own lists is among those pushed. */
  lemma {:induction false} OwnPushed(companions: seq<Companion>, draws: seq<nat>, nowMs: int, j: nat, k: nat, x: Memory)
    requires j <= |companions| == |draws|
    requires k < j && x in CompanionMemories(companions[k], k, MemoryCount(draws[k]), nowMs)
    ensures x in Pushed(companions, draws, nowMs, j)
  {
    var before := Pushed(companions, draws, nowMs, j - 1);
    var own := CompanionMemories(companions[j - 1], j - 1, MemoryCount(draws[j - 1]), nowMs);
    assert Pushed(companions, draws, nowMs, j) == before + own;
    if k < j - 1 {
      OwnPushed(companions, draws, nowMs, j - 1, k, x);
    }
    InAppend(before, own, x);
  }

  lemma InAppend<T>(a: seq<T>, b: seq<T>, x: T)
    requires x in a || x in b
    ensures x in a + b
  {
  }

  /**
   * Pushing already goes from newest to oldest: a companion's memories are
   * 2 hours apart, and the next companion's first is 4 hours after its first.
   * Every memory of the first `j` companions is between 1 and `4j + 1` hours old.
   */
  lemma {:induction false} PushedNewestFirst(companions: seq<Companion>, draws: seq<nat>, nowMs: int, j: nat)
    requires j <= |companions| == |draws|
    ensures Sorting.SortedDescBy(Pushed(companions, draws, nowMs, j), CreatedAt)
    ensures var p := Pushed(companions, draws, nowMs, j);
      forall x :: 0 <= x < |p| ==> nowMs - (4 * j + 1) * HourMs <= p[x].createdAt <= nowMs - HourMs
  {
    if j > 0 {
      var k := j - 1;
      PushedNewestFirst(companions, draws, nowMs, k);
      var before := Pushed(companions, draws, nowMs, k);
      var own := CompanionMemories(companions[k], k, MemoryCount(draws[k]), nowMs);
      var bound := nowMs - (4 * k + 1) * HourMs;
      forall x | 0 <= x < |own|
        ensures nowMs - (4 * j + 1) * HourMs <= own[x].createdAt <= bound
      {
        EarlierForMoreHours(nowMs, 4 * k + 1, HoursAgo(k, x));
        EarlierForMoreHours(nowMs, HoursAgo(k, x), 4 * j + 1);
      }
      forall x, y | 0 <= x < y < |own| ensures own[x].createdAt >= own[y].createdAt {
        EarlierForMoreHours(nowMs, HoursAgo(k, x), HoursAgo(k, y));
      }
      forall x | 0 <= x < |before| ensures nowMs - (4 * j + 1) * HourMs <= bound <= before[x].createdAt {
        assert 0 <= x < |Pushed(companions, draws, nowMs, k)|;
        assert nowMs - (4 * k + 1) * HourMs <= Pushed(companions, draws, nowMs, k)[x].createdAt;
        EarlierForMoreHours(nowMs, 4 * k + 1, 4 * j + 1);
      }
      Sorting.SortedDescAppend(before, own, CreatedAt, bound);
      var p := Pushed(companions, draws, nowMs, j);
      assert p == before + own;
      forall x | 0 <= x < |p| ensures nowMs - (4 * j + 1) * HourMs <= p[x].createdAt <= nowMs - HourMs {
        if x >= |before| {
          EarlierForMoreHours(nowMs, 1, HoursAgo(k, x - |before|));
        }
      }
    }
  }

  /**
   * `generateMemories`: no companions give no memories; otherwise each
   * companion's memories are pushed in turn and the list is sorted newest
   * first, which leaves the pushed order as it is.
   */
  method GenerateMemories(companions: seq<Companion>, draws: seq<nat>, nowMs: int) returns (memories: seq<Memory>)
    requires |draws| == |companions|
    ensures memories == Pushed(companions, draws, nowMs, |companions|)
    ensures Sorting.SortedDescBy(memories, CreatedAt)
    ensures |companions| <= |memories| <= 3 * |companions|
    ensures forall x :: 0 <= x < |memories| ==> memories[x].createdAt < nowMs
  {
    if |companions| == 0 {
      return [];
    }
    var pushed := PushAll(companions, draws, nowMs);
    AllPushed(companions, draws, nowMs);
    memories := Sorting.SortDescBy(pushed, CreatedAt);
  }

  /** The outer loop: every companion's memories, companion after companion. */
  method PushAll(companions: seq<Companion>, draws: seq<nat>, nowMs: int) returns (pushed: seq<Memory>)
    requires |draws| == |companions|
    ensures pushed == Pushed(companions, draws, nowMs, |companions|)
  {
    pushed := [];
    var k := 0;
    while k < |companions|
      invariant 0 <= k <= |companions|
      invariant pushed == Pushed(companions, draws, nowMs, k)
    {
      pushed := PushCompanion(pushed, companions[k], k, MemoryCount(draws[k]), nowMs);
      PushedStep(companions, draws, nowMs, k);
      k := k + 1;
    }
  }

  lemma PushedStep(companions: seq<Companion>, draws: seq<nat>, nowMs: int, k: nat)
    requires k < |companions| == |draws|
    ensures Pushed(companions, draws, nowMs, k + 1)
         == Pushed(companions, draws, nowMs, k) + CompanionMemories(companions[k], k, MemoryCount(draws[k]), nowMs)
  {
  }

  /** What the method promises about the pushed list, and that sorting it changes nothing. */
  lemma AllPushed(companions: seq<Companion>, draws: seq<nat>, nowMs: int)
    requires |draws| == |companions|
    ensures var p := Pushed(companions, draws, nowMs, |companions|);
      && Sorting.SortDescBy(p, CreatedAt) == p
      && Sorting.SortedDescBy(p, CreatedAt)
      && |companions| <= |p| <= 3 * |companions|
      && forall x :: 0 <= x < |p| ==> p[x].createdAt < nowMs
  {
    var p := Pushed(companions, draws, nowMs, |companions|);
    PushedNewestFirst(companions, draws, nowMs, |companions|);
    PushedCount(companions, draws, nowMs, |companions|);
    Sorting.SortDescBySorted(p, CreatedAt);
  }

  /** The inner loop: the companion's `n` memories pushed one by one after those already there. */
  method PushCompanion(pushed: seq<Memory>, companion: Companion, k: nat, n: nat, nowMs: int) returns (r: seq<Memory>)
    ensures r == pushed + CompanionMemories(companion, k, n, nowMs)
  {
    r := pushed;
    var i := 0;
    while i < n
      invariant 0 <= i <= n
      invariant r == pushed + CompanionMemories(companion, k, i, nowMs)
    {
      CompanionMemoriesSnoc(companion, k, i, nowMs);
      r := r + [MemoryAt(companion, k, i, nowMs)];
      i := i + 1;
    }
  }
}
