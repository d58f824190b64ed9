/**
 * The stories page of app/stories/page.tsx: which companions have stories,
 * the active companion's stories in order, moving between companions, the
 * unviewed counts, and the inline desktop viewer, which navigates like
 * `StoryViewer` and starts over when the companion changes. It starts over
 * in an effect, so the render that brings the new companion still shows the
 * old index once, and its viewed effect reports the story there.
 */
module StoriesPage {
  import opened Wrappers
  import opened Types
  import opened Lists
  import Sorting
  import StoryViewer

  predicate HasStory(stories: seq<Story>, companionId: string)
  {
    exists i :: 0 <= i < |stories| && stories[i].companionId == companionId
  }

  /** `companions.filter(c => stories.some(s => s.companionId === c.id))`. */
  function CompanionsWithStories(companions: seq<Companion>, stories: seq<Story>): (r: seq<Companion>)
    ensures forall c :: c in r <==> c in companions && HasStory(stories, c.id)
    ensures Subsequence(r, companions)
  {
    Filter(companions, (c: Companion) => HasStory(stories, c.id))
  }

  function OrderIndex(s: Story): int { s.orderIndex }

  /** `stories.filter(s => s.companionId === activeId).sort((a, b) => a.orderIndex - b.orderIndex)`. */
  function ActiveStories(stories: seq<Story>, activeId: Option<string>): (r: seq<Story>)
    ensures Sorting.SortedBy(r, OrderIndex)
    ensures multiset(r) == multiset(Filter(stories, (s: Story) => Some(s.companionId) == activeId))
    ensures forall i :: 0 <= i < |r| ==> Some(r[i].companionId) == activeId
  {
    var mine := Filter(stories, (s: Story) => Some(s.companionId) == activeId);
    var r := Sorting.SortBy(mine, OrderIndex);
    assert forall i :: 0 <= i < |r| ==> r[i] in multiset(mine);
    r
  }

  /** `findIndex(c => c.id === activeId)`: the first match, or -1. */
  function CompanionIndex(list: seq<Companion>, activeId: Option<string>): (r: int)
    ensures -1 <= r < |list|
    ensures r >= 0 ==> Some(list[r].id) == activeId && forall k :: 0 <= k < r ==> Some(list[k].id) != activeId
    ensures r == -1 <==> forall k :: 0 <= k < |list| ==> Some(list[k].id) != activeId
  {
    match FirstIndex(list, (c: Companion) => Some(c.id) == activeId)
    case None => -1
    case Some(k) => k
  }

  /**
   * What a handler does to the active companion: `None` leaves it alone,
   * `Some(id)` sets it (`Some(None)` is `null`, no active companion).
   */
  type Change = Option<Option<string>>

  /** `handlePrevCompanion`: back one only when there is a companion before. */
  function PrevCompanion(list: seq<Companion>, index: int): (r: Change)
    requires index < |list|
    ensures index > 0 ==> r == Some(Some(list[index - 1].id))
    ensures index <= 0 ==> r == None
  {
    if index > 0 then Some(Some(list[index - 1].id)) else None
  }

  /** `handleNextCompanion`: forward one, and from the last back to the first (`null` if none, or an empty id). */
  function NextCompanion(list: seq<Companion>, index: int): (r: Change)
    requires -1 <= index < |list|
    ensures r.Some?
  {
    if index < |list| - 1 then Some(Some(list[index + 1].id))
    else if |list| > 0 && list[0].id != "" then Some(Some(list[0].id))
    else Some(None)
  }

  /** From a companion of the list, next goes round the list: it lands on position `index + 1` modulo the length. */
  lemma NextCompanionWraps(list: seq<Companion>, index: int)
    requires 0 <= index < |list| && forall k :: 0 <= k < |list| ==> list[k].id != ""
    ensures NextCompanion(list, index) == Some(Some(list[(index + 1) % |list|].id))
  {
  }

  /**
   * The viewer gets `onPrevCompanion` only when `index > 0` and
   * `onNextCompanion` only when `index < length - 1`; so every hand-over
   * the viewer makes moves to the neighbouring companion and never wraps.
   */
  predicate OffersPrev(index: int) { index > 0 }

  predicate OffersNext(list: seq<Companion>, index: int) { index < |list| - 1 }

  lemma HandOversMoveToNeighbours(list: seq<Companion>, index: int)
    requires -1 <= index < |list|
    ensures OffersPrev(index) ==> PrevCompanion(list, index) == Some(Some(list[index - 1].id))
    ensures OffersNext(list, index) ==> NextCompanion(list, index) == Some(Some(list[index + 1].id))
  {
  }

  /** The "{n} new" count: that companion's stories not yet viewed. */
  function UnviewedCount(stories: seq<Story>, companionId: string): (n: nat)
  {
    CountWhere(Filter(stories, (s: Story) => s.companionId == companionId), (s: Story) => !s.viewed)
  }

  /** The ring is highlighted (`unviewedCount > 0`) exactly when the companion has an unviewed story. */
  lemma UnviewedCountPositive(stories: seq<Story>, companionId: string)
    ensures UnviewedCount(stories, companionId) > 0 <==>
      exists i :: 0 <= i < |stories| && stories[i].companionId == companionId && !stories[i].viewed
  {
    var mine := Filter(stories, (s: Story) => s.companionId == companionId);
    CountPositive(mine, (s: Story) => !s.viewed);
    if exists i :: 0 <= i < |stories| && stories[i].companionId == companionId && !stories[i].viewed {
      var i :| 0 <= i < |stories| && stories[i].companionId == companionId && !stories[i].viewed;
      assert stories[i] in mine;
    }
  }

  /** The inline viewer of the desktop layout. */
  class DesktopViewer {
    var stories: seq<Story>
    var companionId: string
    var hasPrevCompanion: bool
    var hasNextCompanion: bool
    var currentIndex: int
    var progress: int
    var calls: seq<StoryViewer.Call>

    predicate InRange()
      reads this
    {
      0 <= currentIndex < |stories|
    }

    constructor(stories: seq<Story>, companionId: string, hasPrev: bool, hasNext: bool)
      ensures this.stories == stories && this.companionId == companionId
      ensures hasPrevCompanion == hasPrev && hasNextCompanion == hasNext
      ensures currentIndex == 0 && progress == 0 && calls == []
    {
      this.stories := stories;
      this.companionId := companionId;
      hasPrevCompanion := hasPrev;
      hasNextCompanion := hasNext;
      currentIndex := 0;
      progress := 0;
      calls := [];
    }

    method GoNext()
      modifies this
      ensures var s := StoryViewer.NextStep(old(currentIndex), |stories|, hasNextCompanion);
        currentIndex == s.index && progress == (if s.resetsProgress then 0 else old(progress))
        && calls == old(calls) + (if s.call.Some? then [s.call.value] else [])
      ensures stories == old(stories) && companionId == old(companionId)
      ensures hasPrevCompanion == old(hasPrevCompanion) && hasNextCompanion == old(hasNextCompanion)
      ensures old(InRange()) ==> InRange()
    {
      var s := StoryViewer.NextStep(currentIndex, |stories|, hasNextCompanion);
      if InRange() {
        StoryViewer.StepsStayInRange(currentIndex, |stories|, hasPrevCompanion, hasNextCompanion);
      }
      currentIndex := s.index;
      if s.resetsProgress {
        progress := 0;
      }
      if s.call.Some? {
        calls := calls + [s.call.value];
      }
    }

    method GoPrev()
      modifies this
      ensures var s := StoryViewer.PrevStep(old(currentIndex), hasPrevCompanion);
        currentIndex == s.index && progress == (if s.resetsProgress then 0 else old(progress))
        && calls == old(calls) + (if s.call.Some? then [s.call.value] else [])
      ensures stories == old(stories) && companionId == old(companionId)
      ensures hasPrevCompanion == old(hasPrevCompanion) && hasNextCompanion == old(hasNextCompanion)
      ensures old(InRange()) ==> InRange()
    {
      var s := StoryViewer.PrevStep(currentIndex, hasPrevCompanion);
      if InRange() {
        StoryViewer.StepsStayInRange(currentIndex, |stories|, hasPrevCompanion, hasNextCompanion);
      }
      currentIndex := s.index;
      if s.resetsProgress {
        progress := 0;
      }
      if s.call.Some? {
        calls := calls + [s.call.value];
      }
    }

    /**
     * New props from the page. React keeps the index and the progress; the
     * timer effect starts over, resetting the progress, because `goNext`
     * depends on callbacks the page makes anew on every render.
     */
    method NewProps(newStories: seq<Story>, newCompanionId: string, hasPrev: bool, hasNext: bool)
      modifies this
      ensures stories == newStories && companionId == newCompanionId
      ensures hasPrevCompanion == hasPrev && hasNextCompanion == hasNext
      ensures currentIndex == old(currentIndex) && progress == 0 && calls == old(calls)
    {
      stories := newStories;
      companionId := newCompanionId;
      hasPrevCompanion := hasPrev;
      hasNextCompanion := hasNext;
      progress := 0;
    }

    /** The effect on `companion.id`: index and progress back to 0. */
    method ResetEffect()
      modifies this
      ensures currentIndex == 0 && progress == 0 && calls == old(calls)
      ensures stories == old(stories) && companionId == old(companionId)
      ensures hasPrevCompanion == old(hasPrevCompanion) && hasNextCompanion == old(hasNextCompanion)
    {
      currentIndex := 0;
      progress := 0;
    }

    /**
     * The page renders the viewer with new props. The first render keeps the
     * old index, and its viewed effect runs when the story there changed.
     * When the companion changed, the reset effect of that same render then
     * moves to story 0, and the render it causes runs the viewed effect
     * again when story 0 is a different story.
     */
    method Rerender(newStories: seq<Story>, newCompanionId: string, hasPrev: bool, hasNext: bool)
      modifies this
      ensures stories == newStories && companionId == newCompanionId
      ensures hasPrevCompanion == hasPrev && hasNextCompanion == hasNext
      ensures newCompanionId != old(companionId) ==> currentIndex == 0
      ensures newCompanionId == old(companionId) ==> currentIndex == old(currentIndex)
      ensures progress == 0
      ensures var first := StoryViewer.EffectCalls(StoryViewer.StoryAt(old(stories), old(currentIndex)), newStories, old(currentIndex));
        calls == old(calls) + first +
          if newCompanionId == old(companionId) then []
          else StoryViewer.EffectCalls(StoryViewer.StoryAt(newStories, old(currentIndex)), newStories, 0)
      ensures newCompanionId != old(companionId) && newStories != [] ==> InRange()
    {
      var previousId := companionId;
      var shown := StoryViewer.StoryAt(stories, currentIndex);
      NewProps(newStories, newCompanionId, hasPrev, hasNext);
      if StoryViewer.StoryAt(stories, currentIndex) != shown {
        ViewedEffect();
      }
      if newCompanionId != previousId {
        shown := StoryViewer.StoryAt(stories, currentIndex);
        ResetEffect();
        if StoryViewer.StoryAt(stories, currentIndex) != shown {
          ViewedEffect();
        }
      }
    }

    /**
     * A hand-over in which the new companion's first render is already at
     * story 0, as a viewer given the companion id as its `key` would be: only
     * the first story can be reported.
     */
    method HandOver(newStories: seq<Story>, newCompanionId: string, hasPrev: bool, hasNext: bool)
      modifies this
      ensures stories == newStories && companionId == newCompanionId
      ensures hasPrevCompanion == hasPrev && hasNextCompanion == hasNext
      ensures currentIndex == 0 && progress == 0
      ensures calls == old(calls) + StoryViewer.ViewedCalls(newStories, 0)
      ensures newStories != [] ==> InRange()
    {
      NewProps(newStories, newCompanionId, hasPrev, hasNext);
      ResetEffect();
      ViewedEffect();
    }

    /** Only a current story that is not yet viewed is reported. */
    method ViewedEffect()
      modifies this
      ensures InRange() && !stories[currentIndex].viewed ==>
                calls == old(calls) + [StoryViewer.Viewed(stories[currentIndex].id)]
      ensures !(InRange() && !stories[currentIndex].viewed) ==> calls == old(calls)
      ensures stories == old(stories) && companionId == old(companionId)
      ensures currentIndex == old(currentIndex) && progress == old(progress)
      ensures hasPrevCompanion == old(hasPrevCompanion) && hasNextCompanion == old(hasNextCompanion)
    {
      if InRange() && !stories[currentIndex].viewed {
        calls := calls + [StoryViewer.Viewed(stories[currentIndex].id)];
      }
    }
  }

  /**
   * As written: from the last of three stories `goNext` hands over to a
   * companion with five. The render that brings them still shows index 2, so
   * story 2 is reported viewed before the reset moves to story 0.
   */
  method DesktopHandOverReportsUnshown() returns (index: int, calls: seq<StoryViewer.Call>)
    ensures index == 0
    ensures calls == [StoryViewer.NextCompanion, StoryViewer.Viewed("b2"), StoryViewer.Viewed("b0")]
  {
    var v := new DesktopViewer(StoryViewer.ThreeStories, "a", false, true);
    v.GoNext();
    v.GoNext();
    v.GoNext();
    v.Rerender(StoryViewer.FiveStories, "b", true, true);
    index, calls := v.currentIndex, v.calls;
  }

  /** With the keyed hand-over, only the story shown first is reported. */
  method DesktopHandOverReportsFirst() returns (index: int, calls: seq<StoryViewer.Call>)
    ensures index == 0
    ensures calls == [StoryViewer.NextCompanion, StoryViewer.Viewed("b0")]
  {
    var v := new DesktopViewer(StoryViewer.ThreeStories, "a", false, true);
    v.GoNext();
    v.GoNext();
    v.GoNext();
    v.HandOver(StoryViewer.FiveStories, "b", true, true);
    index, calls := v.currentIndex, v.calls;
  }
}
