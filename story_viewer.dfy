/**
 * The full-screen story viewer of components/stories/StoryViewer.tsx. The
 * index moves one story at a time; at either end it hands over to the
 * neighbouring companion when the parent supplied that callback (and at the
 * last story closes the viewer otherwise). The callbacks the viewer makes
 * are kept as a log.
 *
 * After a hand-over the stories page renders the same viewer again with the
 * next companion's stories: nothing resets the index, so the new companion
 * opens at the position the old one was left at (`Viewer.Rerender`).
 * `Viewer.HandOver` is the hand-over that starts at the first story.
 */
module StoryViewer {
  import opened Wrappers
  import Types

  /** The parent callbacks a viewer can make. */
  datatype Call = NextCompanion | PrevCompanion | Close | Viewed(storyId: string)

  /** The outcome of one navigation step: the new index and the callback made, if any. */
  datatype Step = Step(index: int, call: Option<Call>, resetsProgress: bool)

  /** `goNext`: past the last story, hand over to the next companion, or close. */
  function NextStep(index: int, count: nat, hasNextCompanion: bool): (s: Step)
    ensures index >= count - 1 ==>
      (s.index == index && !s.resetsProgress
       && s.call == Some(if hasNextCompanion then NextCompanion else Close))
    ensures index < count - 1 ==> s == Step(index + 1, None, true)
  {
    if index >= count - 1 then Step(index, Some(if hasNextCompanion then NextCompanion else Close), false)
    else Step(index + 1, None, true)
  }

  /** `goPrev`: before the first story, hand over to the previous companion if there is one. */
  function PrevStep(index: int, hasPrevCompanion: bool): (s: Step)
    ensures index <= 0 ==>
      (s.index == index && !s.resetsProgress
       && s.call == (if hasPrevCompanion then Some(PrevCompanion) else None))
    ensures index > 0 ==> s == Step(index - 1, None, true)
  {
    if index <= 0 then Step(index, if hasPrevCompanion then Some(PrevCompanion) else None, false)
    else Step(index - 1, None, true)
  }

  /** Neither step leaves the stories, and a step back undoes a step forward. */
  lemma StepsStayInRange(index: int, count: nat, hasPrev: bool, hasNext: bool)
    requires 0 <= index < count
    ensures 0 <= NextStep(index, count, hasNext).index < count
    ensures 0 <= PrevStep(index, hasPrev).index < count
    ensures index < count - 1 ==> PrevStep(NextStep(index, count, hasNext).index, hasPrev).index == index
    ensures index > 0 ==> NextStep(PrevStep(index, hasPrev).index, count, hasNext).index == index
  {
  }

  /** The progress bar of story `i`: full before the current one, partial at it, empty after. */
  datatype Width = Full | Progress | Empty

  function BarWidth(i: int, current: int): (w: Width)
    ensures w == Full <==> i < current
    ensures w == Progress <==> i == current
  {
    if i < current then Full else if i == current then Progress else Empty
  }

  /** How many of the bars `0 .. count-1` are full. */
  function FullBars(current: int, count: nat): nat
  {
    if count == 0 then 0
    else FullBars(current, count - 1) + (if BarWidth(count - 1, current) == Full then 1 else 0)
  }

  /**
   * With the current story at `current`, exactly `current` bars are full
   * (all of them once `current` passes the last), and bar `current` is the
   * one in progress.
   */
  lemma {:induction false} FullBarsCount(current: int, count: nat)
    ensures FullBars(current, count) ==
      if current <= 0 then 0 else if current <= count then current else count
  {
    if count > 0 {
      FullBarsCount(current, count - 1);
    }
  }

  /** Where a tap lands, on a screen `width` wide: left third, right third, or the middle. */
  datatype Tap = Back | Forward | Middle

  function TapZone(x: int, width: int): (t: Tap)
    ensures t == Back <==> 3 * x < width
    ensures t == Forward <==> 3 * x > 2 * width && !(3 * x < width)
  {
    if 3 * x < width then Back else if 3 * x > 2 * width then Forward else Middle
  }

  /** The zones of a screen of positive width split it into three. */
  lemma TapThirds(x: int, width: int)
    requires width > 0
    ensures 0 <= x && 3 * x < width ==> TapZone(x, width) == Back
    ensures x <= width && 3 * x > 2 * width ==> TapZone(x, width) == Forward
    ensures width <= 3 * x <= 2 * width ==> TapZone(x, width) == Middle
  {
  }

  /** The story at position `i`, if there is one (`stories[i]`, undefined otherwise). */
  function StoryAt(stories: seq<Types.Story>, i: int): (r: Option<Types.Story>)
    ensures r.Some? <==> 0 <= i < |stories|
  {
    if 0 <= i < |stories| then Some(stories[i]) else None
  }

  /** The viewed effect for position `i`: `onViewed` for a story there not yet viewed. */
  function ViewedCalls(stories: seq<Types.Story>, i: int): (r: seq<Call>)
    ensures |r| <= 1
    ensures r != [] <==> 0 <= i < |stories| && !stories[i].viewed
  {
    if 0 <= i < |stories| && !stories[i].viewed then [Viewed(stories[i].id)] else []
  }

  /**
   * The viewed effect after a render: it depends on the current story, so it
   * runs only when that story differs from the one `shown` before.
   */
  function EffectCalls(shown: Option<Types.Story>, stories: seq<Types.Story>, i: int): (r: seq<Call>)
    ensures StoryAt(stories, i) == shown ==> r == []
    ensures StoryAt(stories, i) != shown ==> r == ViewedCalls(stories, i)
  {
    if StoryAt(stories, i) != shown then ViewedCalls(stories, i) else []
  }

  class Viewer {
    var stories: seq<Types.Story>
    var hasPrevCompanion: bool
    var hasNextCompanion: bool
    var currentIndex: int
    /** The current story's progress in percent; only its resets to 0 are modelled. */
    var progress: int
    var calls: seq<Call>

    predicate InRange()
      reads this
    {
      0 <= currentIndex < |stories|
    }

    constructor(stories: seq<Types.Story>, initialIndex: int, hasPrev: bool, hasNext: bool)
      ensures this.stories == stories && hasPrevCompanion == hasPrev && hasNextCompanion == hasNext
      ensures currentIndex == initialIndex && progress == 0 && calls == []
      ensures 0 <= initialIndex < |stories| ==> InRange()
    {
      this.stories := stories;
      hasPrevCompanion := hasPrev;
      hasNextCompanion := hasNext;
      currentIndex := initialIndex;
      progress := 0;
      calls := [];
    }

    method Apply(s: Step)
      modifies this
      ensures currentIndex == s.index
      ensures progress == (if s.resetsProgress then 0 else old(progress))
      ensures calls == old(calls) + (if s.call.Some? then [s.call.value] else [])
      ensures stories == old(stories) && hasPrevCompanion == old(hasPrevCompanion) && hasNextCompanion == old(hasNextCompanion)
    {
      currentIndex := s.index;
      if s.resetsProgress {
        progress := 0;
      }
      if s.call.Some? {
        calls := calls + [s.call.value];
      }
    }

    method GoNext()
      modifies this
      ensures var s := NextStep(old(currentIndex), |stories|, hasNextCompanion);
        currentIndex == s.index && progress == (if s.resetsProgress then 0 else old(progress))
        && calls == old(calls) + (if s.call.Some? then [s.call.value] else [])
      ensures old(InRange()) ==> InRange()
      ensures stories == old(stories) && hasPrevCompanion == old(hasPrevCompanion) && hasNextCompanion == old(hasNextCompanion)
    {
      if InRange() {
        StepsStayInRange(currentIndex, |stories|, hasPrevCompanion, hasNextCompanion);
      }
      Apply(NextStep(currentIndex, |stories|, hasNextCompanion));
    }

    method GoPrev()
      modifies this
      ensures var s := PrevStep(old(currentIndex), hasPrevCompanion);
        currentIndex == s.index && progress == (if s.resetsProgress then 0 else old(progress))
        && calls == old(calls) + (if s.call.Some? then [s.call.value] else [])
      ensures old(InRange()) ==> InRange()
      ensures stories == old(stories) && hasPrevCompanion == old(hasPrevCompanion) && hasNextCompanion == old(hasNextCompanion)
    {
      if InRange() {
        StepsStayInRange(currentIndex, |stories|, hasPrevCompanion, hasNextCompanion);
      }
      Apply(PrevStep(currentIndex, hasPrevCompanion));
    }

    /** The viewed effect: only a current story not yet viewed is reported. */
    method ViewedEffect()
      modifies this
      ensures InRange() && !stories[currentIndex].viewed ==>
                calls == old(calls) + [Viewed(stories[currentIndex].id)]
      ensures !(InRange() && !stories[currentIndex].viewed) ==> calls == old(calls)
      ensures currentIndex == old(currentIndex) && progress == old(progress)
      ensures stories == old(stories) && hasPrevCompanion == old(hasPrevCompanion) && hasNextCompanion == old(hasNextCompanion)
    {
      if InRange() && !stories[currentIndex].viewed {
        calls := calls + [Viewed(stories[currentIndex].id)];
      }
    }

    /** `handleTap`: back in the left third, forward in the right third, nothing between. */
    method HandleTap(x: int, width: int)
      modifies this
      ensures TapZone(x, width) == Back ==> var s := PrevStep(old(currentIndex), hasPrevCompanion);
        currentIndex == s.index && calls == old(calls) + (if s.call.Some? then [s.call.value] else [])
      ensures TapZone(x, width) == Forward ==> var s := NextStep(old(currentIndex), |stories|, hasNextCompanion);
        currentIndex == s.index && calls == old(calls) + (if s.call.Some? then [s.call.value] else [])
      ensures TapZone(x, width) == Middle ==>
        currentIndex == old(currentIndex) && progress == old(progress) && calls == old(calls)
      ensures old(InRange()) ==> InRange()
      ensures stories == old(stories) && hasPrevCompanion == old(hasPrevCompanion) && hasNextCompanion == old(hasNextCompanion)
    {
      match TapZone(x, width) {
        case Back => GoPrev();
        case Forward => GoNext();
        case Middle =>
      }
    }

    /**
     * The page renders the viewer again with new props, as after a hand-over
     * to another companion. It is the same instance (the page gives it no
     * `key`), so the index is kept, even when it is past the end of the new
     * stories; the viewed effect runs when the story at that index changed;
     * and the timer effect starts over, resetting the progress, because
     * `goNext` depends on callbacks the page makes anew on every render.
     */
    method Rerender(newStories: seq<Types.Story>, hasPrev: bool, hasNext: bool)
      modifies this
      ensures stories == newStories && hasPrevCompanion == hasPrev && hasNextCompanion == hasNext
      ensures currentIndex == old(currentIndex) && progress == 0
      ensures calls == old(calls) + EffectCalls(StoryAt(old(stories), old(currentIndex)), newStories, old(currentIndex))
    {
      var shown := StoryAt(stories, currentIndex);
      stories := newStories;
      hasPrevCompanion := hasPrev;
      hasNextCompanion := hasNext;
      progress := 0;
      if StoryAt(stories, currentIndex) != shown {
        ViewedEffect();
      }
    }

    /**
     * A hand-over that opens the new companion at its first story, as a
     * fresh viewer would: index and progress back to 0, and the first story
     * reported when it is not yet viewed.
     */
    method HandOver(newStories: seq<Types.Story>, hasPrev: bool, hasNext: bool)
      modifies this
      ensures stories == newStories && hasPrevCompanion == hasPrev && hasNextCompanion == hasNext
      ensures currentIndex == 0 && progress == 0
      ensures calls == old(calls) + ViewedCalls(newStories, 0)
      ensures newStories != [] ==> InRange()
    {
      stories := newStories;
      hasPrevCompanion := hasPrev;
      hasNextCompanion := hasNext;
      currentIndex := 0;
      progress := 0;
      ViewedEffect();
    }
  }

  /** A story of companion `companionId`, not yet viewed. */
  function Unseen(id: string, companionId: string): Types.Story
  {
    Types.Story(id, companionId, Types.Image, "", false, 0)
  }

  const ThreeStories: seq<Types.Story> := [Unseen("a0", "a"), Unseen("a1", "a"), Unseen("a2", "a")]

  const FiveStories: seq<Types.Story> :=
    [Unseen("b0", "b"), Unseen("b1", "b"), Unseen("b2", "b"), Unseen("b3", "b"), Unseen("b4", "b")]

  /**
   * As written: from the last of three stories `goNext` hands over to a
   * companion with five, and the kept index opens that companion at its
   * story 2; stories 0 and 1 are passed over.
   */
  method HandOverSkipsStories() returns (index: int, calls: seq<Call>)
    ensures index == 2 && calls == [NextCompanion, Viewed("b2")]
  {
    var v := new Viewer(ThreeStories, 0, false, true);
    v.GoNext();
    v.GoNext();
    v.GoNext();
    v.Rerender(FiveStories, true, true);
    index, calls := v.currentIndex, v.calls;
  }

  /** With the hand-over that starts over, the same steps open the new companion at story 0. */
  method HandOverStartsAtFirst() returns (index: int, calls: seq<Call>)
    ensures index == 0 && calls == [NextCompanion, Viewed("b0")]
  {
    var v := new Viewer(ThreeStories, 0, false, true);
    v.GoNext();
    v.GoNext();
    v.GoNext();
    v.HandOver(FiveStories, true, true);
    index, calls := v.currentIndex, v.calls;
  }
}
