/**
 * The older story tray of src/components/stories/StoryTray.tsx: the
 * companions that have stories, in companion order, each with whether any
 * of its stories is unviewed.
 */
module SrcStoryTray {
  import opened SrcTypes
  import opened Lists

  datatype Entry = Entry(companion: Companion, hasUnviewed: bool)

  predicate HasStory(stories: seq<Story>, companionId: string)
  {
    exists i :: 0 <= i < |stories| && stories[i].companionId == companionId
  }

  predicate HasUnviewed(stories: seq<Story>, companionId: string)
  {
    exists i :: 0 <= i < |stories| && stories[i].companionId == companionId && !stories[i].viewed
  }

  function EntryCompanions(entries: seq<Entry>): (r: seq<Companion>)
    ensures |r| == |entries|
    ensures forall i :: 0 <= i < |r| ==> r[i] == entries[i].companion
  {
    if entries == [] then [] else [entries[0].companion] + EntryCompanions(entries[1..])
  }

  /** `companions.filter(has a story).map(c => ({ companion: c, hasUnviewed }))`. */
  function CompanionStories(companions: seq<Companion>, stories: seq<Story>): (r: seq<Entry>)
    ensures Subsequence(EntryCompanions(r), companions)
    ensures forall c :: c in EntryCompanions(r) <==> c in companions && HasStory(stories, c.id)
    ensures forall i :: 0 <= i < |r| ==> (r[i].hasUnviewed <==> HasUnviewed(stories, r[i].companion.id))
  {
    var listed := Filter(companions, (c: Companion) => HasStory(stories, c.id));
    var r := seq(|listed|, i requires 0 <= i < |listed| => Entry(listed[i], HasUnviewed(stories, listed[i].id)));
    assert EntryCompanions(r) == listed;
    r
  }

  /** A companion with an unviewed story has one at all, so it is listed, highlighted. */
  lemma UnviewedIsListed(companions: seq<Companion>, stories: seq<Story>, c: Companion)
    requires c in companions && HasUnviewed(stories, c.id)
    ensures Entry(c, true) in CompanionStories(companions, stories)
  {
    var r := CompanionStories(companions, stories);
    assert c in EntryCompanions(r);
    var i :| 0 <= i < |r| && EntryCompanions(r)[i] == c;
    assert r[i] == Entry(c, true);
  }

  /** Clicking entry `i` passes its companion's id. */
  function ClickedId(entries: seq<Entry>, i: nat): (id: string)
    requires i < |entries|
    ensures id == EntryCompanions(entries)[i].id
  {
    entries[i].companion.id
  }
}
