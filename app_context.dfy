/**
 * The React context of src/contexts/AppContext.tsx: the provider's state
 * holders (`stories`, the message map and the mood) are fields, the
 * callbacks that update them are methods, and `getCompanion` is a search
 * over the fixed companion list.
 */
module AppContext {
  import opened Wrappers
  import opened SrcTypes
  import Store
  import Lists

  /** `prev.map(s => s.id === storyId ? { ...s, viewed: true } : s)` on the older story record. */
  function MarkViewed(stories: seq<Story>, storyId: string): (r: seq<Story>)
    ensures |r| == |stories|
  {
    seq(|stories|, i requires 0 <= i < |stories| =>
      if stories[i].id == storyId then stories[i].(viewed := true) else stories[i])
  }

  /** Only the stories with that id become viewed; nothing else changes. */
  lemma MarkViewedSpec(stories: seq<Story>, storyId: string)
    ensures var r := MarkViewed(stories, storyId);
      forall i :: 0 <= i < |stories| ==>
        && r[i].viewed == (stories[i].viewed || stories[i].id == storyId)
        && r[i].(viewed := stories[i].viewed) == stories[i]
  {
  }

  /** `companions.find(c => c.id === id)`: the position of the first match. */
  function FirstWithId(companions: seq<Companion>, id: string): (r: Option<nat>)
    ensures r.Some? ==> r.value < |companions| && companions[r.value].id == id
                        && forall k :: 0 <= k < r.value ==> companions[k].id != id
    ensures r.None? <==> forall k :: 0 <= k < |companions| ==> companions[k].id != id
  {
    Lists.FirstIndex(companions, (c: Companion) => c.id == id)
  }

  class AppProvider {
    const companions: seq<Companion>
    var stories: seq<Story>
    var messageMap: map<string, seq<Message>>
    var mood: string

    /** The provider starts from the mock data, with mood "romantic". */
    constructor(mockCompanions: seq<Companion>, mockStories: seq<Story>,
                mockMessages: map<string, seq<Message>>)
      ensures companions == mockCompanions && stories == mockStories
      ensures messageMap == mockMessages && mood == "romantic"
    {
      companions := mockCompanions;
      stories := mockStories;
      messageMap := mockMessages;
      mood := "romantic";
    }

    method SetMood(m: string)
      modifies this
      ensures mood == m && stories == old(stories) && messageMap == old(messageMap)
    {
      mood := m;
    }

    method MarkStoryViewed(storyId: string)
      modifies this
      ensures stories == MarkViewed(old(stories), storyId)
      ensures messageMap == old(messageMap) && mood == old(mood)
    {
      stories := MarkViewed(stories, storyId);
    }

    /** Appends to the companion's list, creating it if absent (`Store.AppendedSpec`). */
    method AddMessage(companionId: string, message: Message)
      modifies this
      ensures messageMap == Store.Appended(old(messageMap), companionId, message)
      ensures stories == old(stories) && mood == old(mood)
    {
      messageMap := Store.Appended(messageMap, companionId, message);
    }

    /** `getCompanion(id)`: the first companion with that id, or `undefined`. */
    function GetCompanion(id: string): (r: Option<Companion>)
      ensures r.Some? ==> r.value.id == id && r.value in companions
      ensures r.Some? ==> exists k :: 0 <= k < |companions| && companions[k] == r.value
                            && forall j :: 0 <= j < k ==> companions[j].id != id
      ensures r.None? <==> forall k :: 0 <= k < |companions| ==> companions[k].id != id
    {
      match FirstWithId(companions, id)
      case None => None
      case Some(k) => Some(companions[k])
    }
  }
}
