/**
 * The story tray of components/stories/StoryTray.tsx: one group per
 * companion that has stories, in companion order, with that companion's
 * stories and whether any of them is unviewed.
 */
module StoryTray {
  import opened Types
  import opened Lists
  import StoriesPage

  datatype Group = Group(companion: Companion, stories: seq<Story>, hasUnviewed: bool)

  predicate HasUnviewed(stories: seq<Story>, companionId: string)
  {
    exists i :: 0 <= i < |stories| && stories[i].companionId == companionId && !stories[i].viewed
  }

  /** The group `map` builds for one companion. */
  function GroupOf(c: Companion, stories: seq<Story>): (g: Group)
    ensures g.companion == c
    ensures forall s :: s in g.stories <==> s in stories && s.companionId == c.id
    ensures Subsequence(g.stories, stories)
    ensures g.hasUnviewed <==> HasUnviewed(stories, c.id)
  {
    Group(c, Filter(stories, (s: Story) => s.companionId == c.id), HasUnviewed(stories, c.id))
  }

  /** `companions.map(GroupOf).filter(g => g.stories.length > 0)`. */
  function StoryGroups(companions: seq<Companion>, stories: seq<Story>): (r: seq<Group>)
    ensures forall i :: 0 <= i < |r| ==> r[i] == GroupOf(r[i].companion, stories) && |r[i].stories| > 0
  {
    if companions == [] then []
    else
      var g := GroupOf(companions[0], stories);
      (if |g.stories| > 0 then [g] else []) + StoryGroups(companions[1..], stories)
  }

  function GroupCompanions(groups: seq<Group>): (r: seq<Companion>)
    ensures |r| == |groups|
    ensures forall i :: 0 <= i < |r| ==> r[i] == groups[i].companion
  {
    if groups == [] then [] else [groups[0].companion] + GroupCompanions(groups[1..])
  }

  lemma GroupCompanionsAppend(a: seq<Group>, b: seq<Group>)
    ensures GroupCompanions(a + b) == GroupCompanions(a) + GroupCompanions(b)
  {
  }

  /**
   * The tray's companions are exactly the stories page's
   * `companionsWithStories`: the companions with at least one story, in
   * companion order.
   */
  lemma {:induction false} TrayMatchesPage(companions: seq<Companion>, stories: seq<Story>)
    ensures GroupCompanions(StoryGroups(companions, stories))
            == StoriesPage.CompanionsWithStories(companions, stories)
  {
    if companions != [] {
      var c := companions[0];
      var g := GroupOf(c, stories);
      TrayMatchesPage(companions[1..], stories);
      CountPositive(stories, (s: Story) => s.companionId == c.id);
      GroupCompanionsAppend(if |g.stories| > 0 then [g] else [], StoryGroups(companions[1..], stories));
    }
  }

  /** A group's ring is highlighted exactly when the page counts unviewed stories for it. */
  lemma HighlightMatchesCount(c: Companion, stories: seq<Story>)
    ensures GroupOf(c, stories).hasUnviewed <==> StoriesPage.UnviewedCount(stories, c.id) > 0
  {
    StoriesPage.UnviewedCountPositive(stories, c.id);
  }

  /** Clicking group `i` passes its companion's id. */
  function ClickedId(groups: seq<Group>, i: nat): (id: string)
    requires i < |groups|
    ensures id == GroupCompanions(groups)[i].id
  {
    groups[i].companion.id
  }
}
