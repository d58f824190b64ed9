/**
 * The older story viewer of src/components/stories/StoryViewer.tsx: the
 * index is clamped instead of handing over to other companions, a step past
 * the last story schedules `onClose`, and every index change reports the
 * current story as viewed.
 */
module SrcStoryViewer {
  import opened Wrappers
  import SrcTypes
  import StoryViewer

  /** `(story?.duration || 5) * 1000`: a missing story or a zero duration means 5 s. */
  function DurationMs(story: Option<SrcTypes.Story>): (ms: int)
    ensures story.None? ==> ms == 5000
    ensures story.Some? && story.value.duration == 0 ==> ms == 5000
    ensures story.Some? && story.value.duration != 0 ==> ms == story.value.duration * 1000
  {
    (if story.Some? && story.value.duration != 0 then story.value.duration else 5) * 1000
  }

  /** The functional update of `goNext`: the index stays at the last story, where `onClose` is scheduled. */
  function NextIndex(prev: int, count: nat): (r: (int, bool))
    ensures prev >= count - 1 ==> r == (prev, true)
    ensures prev < count - 1 ==> r == (prev + 1, false)
  {
    if prev >= count - 1 then (prev, true) else (prev + 1, false)
  }

  /** `Math.max(0, prev - 1)`. */
  function PrevIndex(prev: int): (r: int)
    ensures r >= 0
    ensures prev >= 1 ==> r == prev - 1
    ensures prev <= 1 ==> r == 0
  {
    if prev - 1 > 0 then prev - 1 else 0
  }

  /** The index after `k` forward steps from the first story. */
  function Advance(k: nat, count: nat): int
  {
    if k == 0 then 0 else NextIndex(Advance(k - 1, count), count).0
  }

  /**
   * Forward steps stop at the last story and backward steps at the first:
   * from an index in range both stay in range, and `k` forward steps from
   * the start land on story `min(k, count - 1)`.
   */
  lemma {:induction false} AdvanceClamps(k: nat, count: nat)
    requires count > 0
    ensures Advance(k, count) == if k < count then k else count - 1
  {
    if k > 0 {
      AdvanceClamps(k - 1, count);
    }
  }

  lemma ClampedStaysInRange(prev: int, count: nat)
    requires 0 <= prev < count
    ensures 0 <= NextIndex(prev, count).0 < count
    ensures 0 <= PrevIndex(prev) < count
    ensures NextIndex(prev, count).1 <==> prev == count - 1
  {
  }

  class Viewer {
    const stories: seq<SrcTypes.Story>
    var currentIndex: int
    var progress: int
    var calls: seq<StoryViewer.Call>

    /** Index 0, or a story of the list. */
    predicate Valid()
      reads this
    {
      currentIndex == 0 || 0 <= currentIndex < |stories|
    }

    function Current(): (s: Option<SrcTypes.Story>)
      reads this
      ensures s.Some? <==> 0 <= currentIndex < |stories|
    {
      if 0 <= currentIndex < |stories| then Some(stories[currentIndex]) else None
    }

    constructor(stories: seq<SrcTypes.Story>)
      ensures this.stories == stories && currentIndex == 0 && progress == 0 && calls == []
      ensures Valid()
    {
      this.stories := stories;
      currentIndex := 0;
      progress := 0;
      calls := [];
    }

    method GoNext()
      modifies this
      ensures old(Valid()) ==> Valid()
      ensures currentIndex == NextIndex(old(currentIndex), |stories|).0 && progress == 0
      ensures calls == old(calls) + (if NextIndex(old(currentIndex), |stories|).1 then [StoryViewer.Close] else [])
    {
      var (next, closes) := NextIndex(currentIndex, |stories|);
      if closes {
        calls := calls + [StoryViewer.Close];
      }
      currentIndex := next;
      progress := 0;
    }

    method GoPrev()
      modifies this
      ensures old(Valid()) ==> Valid()
      ensures currentIndex == PrevIndex(old(currentIndex)) && progress == 0 && calls == old(calls)
    {
      currentIndex := PrevIndex(currentIndex);
      progress := 0;
    }

    /**
     * One run of the effect. It runs again whenever one of its dependencies
     * changes: the index, the story, its duration, `onViewed`, or `goNext`,
     * which is rebuilt when `onClose` or the number of stories changes. The
     * current story is reported whether or not it was viewed, progress
     * restarts, and the returned wait is when `goNext` fires.
     */
    method IndexEffect() returns (timerMs: int)
      modifies this
      ensures Current().Some? ==> calls == old(calls) + [StoryViewer.Viewed(Current().value.id)]
      ensures Current().None? ==> calls == old(calls)
      ensures timerMs == DurationMs(Current()) && timerMs != 0
      ensures currentIndex == old(currentIndex) && progress == 0
    {
      var story := Current();
      if story.Some? {
        calls := calls + [StoryViewer.Viewed(story.value.id)];
      }
      progress := 0;
      timerMs := DurationMs(story);
    }

    /** `handleTap`: back in the left third, forward anywhere else. */
    method HandleTap(x: int, width: int)
      modifies this
      ensures old(Valid()) ==> Valid()
      ensures 3 * x < width ==> currentIndex == PrevIndex(old(currentIndex)) && calls == old(calls)
      ensures 3 * x >= width ==> currentIndex == NextIndex(old(currentIndex), |stories|).0
      ensures progress == 0
    {
      if 3 * x < width {
        GoPrev();
      } else {
        GoNext();
      }
    }
  }
}
