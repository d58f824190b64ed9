/**
 * The client store of lib/store.ts (`useAppStore`). The store object is an
 * `AppStore` whose fields the actions replace; the new values are computed
 * by the pure functions of this module, and the lemmas state what the
 * source promises about them.
 */
module Store {
  import opened Wrappers
  import opened Types

  // ------------------------------------------------------------ per-companion lists

  /** `messages[companionId] || []`: a companion without a list reads as empty. */
  function ListFor<M>(lists: map<string, seq<M>>, key: string): (r: seq<M>)
    ensures key !in lists ==> r == []
  {
    if key in lists then lists[key] else []
  }

  /** `{ ...lists, [key]: [...(lists[key] || []), x] }`. */
  function Appended<M>(lists: map<string, seq<M>>, key: string, x: M): map<string, seq<M>>
  {
    lists[key := ListFor(lists, key) + [x]]
  }

  /**
   * Appending puts `x` at the end of that companion's list, keeps what was
   * there in front of it, creates the list when it was absent, and leaves
   * every other companion's list as it was.
   */
  lemma AppendedSpec<M>(lists: map<string, seq<M>>, key: string, x: M)
    ensures var r := Appended(lists, key, x);
      && r.Keys == lists.Keys + {key}
      && |r[key]| == |ListFor(lists, key)| + 1
      && r[key][|r[key]| - 1] == x
      && r[key][..|r[key]| - 1] == ListFor(lists, key)
      && (key !in lists ==> r[key] == [x])
      && forall k :: k in lists && k != key ==> r[k] == lists[k]
  {
    var r := Appended(lists, key, x);
    assert r[key][..|r[key]| - 1] == ListFor(lists, key);
  }

  // ------------------------------------------------------------ stories

  /** `stories.map(s => s.id === storyId ? { ...s, viewed: true } : s)`. */
  function MarkViewed(stories: seq<Story>, storyId: string): (r: seq<Story>)
    ensures |r| == |stories|
  {
    seq(|stories|, i requires 0 <= i < |stories| =>
      if stories[i].id == storyId then stories[i].(viewed := true) else stories[i])
  }

  /**
   * Only the stories with that id change, and of them only `viewed`, which
   * becomes true; every other story stays as it was.
   */
  lemma MarkViewedSpec(stories: seq<Story>, storyId: string)
    ensures var r := MarkViewed(stories, storyId);
      forall i :: 0 <= i < |stories| ==>
        && r[i].viewed == (stories[i].viewed || stories[i].id == storyId)
        && r[i].(viewed := stories[i].viewed) == stories[i]
        && (stories[i].id != storyId ==> r[i] == stories[i])
  {
  }

  /** Marking the same story twice is the same as marking it once. */
  lemma MarkViewedIdempotent(stories: seq<Story>, storyId: string)
    ensures MarkViewed(MarkViewed(stories, storyId), storyId) == MarkViewed(stories, storyId)
  {
  }

  /** Marking different stories commutes. */
  lemma MarkViewedCommutes(stories: seq<Story>, a: string, b: string)
    ensures MarkViewed(MarkViewed(stories, a), b) == MarkViewed(MarkViewed(stories, b), a)
  {
  }

  // ------------------------------------------------------------ messages

  /** `list.map(msg => msg.id === messageId ? { ...msg, ...updates } : msg)`. */
  function UpdateById(list: seq<Message>, messageId: string, updates: MessagePatch): (r: seq<Message>)
    ensures |r| == |list|
  {
    seq(|list|, i requires 0 <= i < |list| =>
      if list[i].id == messageId then ApplyMessagePatch(list[i], updates) else list[i])
  }

  /**
   * The update keeps the list's length and, when the patch has no `id` key,
   * the order of ids; it touches only the messages whose id matches, so
   * without a matching message the list is unchanged.
   */
  lemma UpdateByIdSpec(list: seq<Message>, messageId: string, updates: MessagePatch)
    ensures var r := UpdateById(list, messageId, updates);
      && (forall i :: 0 <= i < |list| && list[i].id != messageId ==> r[i] == list[i])
      && (forall i :: 0 <= i < |list| && list[i].id == messageId ==>
            r[i] == ApplyMessagePatch(list[i], updates))
      && (updates.id.None? ==> forall i :: 0 <= i < |list| ==> r[i].id == list[i].id)
      && ((forall i :: 0 <= i < |list| ==> list[i].id != messageId) ==> r == list)
  {
  }

  /** The new message map of `updateMessage`. */
  function UpdatedLists(lists: map<string, seq<Message>>, companionId: string, messageId: string,
                        updates: MessagePatch): map<string, seq<Message>>
  {
    lists[companionId := UpdateById(ListFor(lists, companionId), messageId, updates)]
  }

  /**
   * `updateMessage` changes no other companion's list, and for a companion
   * that had no list it leaves that companion mapped to the empty list.
   */
  lemma UpdatedListsSpec(lists: map<string, seq<Message>>, companionId: string, messageId: string,
                         updates: MessagePatch)
    ensures var r := UpdatedLists(lists, companionId, messageId, updates);
      && r.Keys == lists.Keys + {companionId}
      && |r[companionId]| == |ListFor(lists, companionId)|
      && (companionId !in lists ==> r[companionId] == [])
      && forall k :: k in lists && k != companionId ==> r[k] == lists[k]
  {
  }

  // ------------------------------------------------------------ conversations

  /** `convs.map(c => c.companionId === companionId ? { ...c, ...updates } : c)`. */
  function MergeInto(convs: seq<Conversation>, companionId: string, updates: ConversationPatch)
    : (r: seq<Conversation>)
    ensures |r| == |convs|
  {
    seq(|convs|, i requires 0 <= i < |convs| =>
      if convs[i].companionId == companionId then ApplyConversationPatch(convs[i], updates)
      else convs[i])
  }

  predicate HasCompanion(convs: seq<Conversation>, companionId: string)
  {
    exists i :: 0 <= i < |convs| && convs[i].companionId == companionId
  }

  /**
   * `addConversation`: when a conversation with the same companion exists
   * (the `find` result is an object, hence truthy), the new one is spread
   * over every such entry; otherwise it is put in front.
   */
  function Upsert(convs: seq<Conversation>, conv: Conversation): seq<Conversation>
  {
    if HasCompanion(convs, conv.companionId) then MergeInto(convs, conv.companionId, AsPatch(conv))
    else [conv] + convs
  }

  /** The companion id of every conversation, in order. */
  function CompanionIds(convs: seq<Conversation>): (r: seq<string>)
    ensures |r| == |convs|
  {
    seq(|convs|, i requires 0 <= i < |convs| => convs[i].companionId)
  }

  predicate Distinct(ids: seq<string>)
  {
    forall i, j :: 0 <= i < j < |ids| ==> ids[i] != ids[j]
  }

  /**
   * `updateConversation` keeps the length, changes only the entries of that
   * companion, and leaves every companion id in place unless the patch
   * itself moves the entry to another companion.
   */
  lemma MergeIntoSpec(convs: seq<Conversation>, companionId: string, updates: ConversationPatch)
    ensures var r := MergeInto(convs, companionId, updates);
      && (forall i :: 0 <= i < |convs| && convs[i].companionId != companionId ==> r[i] == convs[i])
      && (forall i :: 0 <= i < |convs| && convs[i].companionId == companionId ==>
            r[i] == ApplyConversationPatch(convs[i], updates))
      && (updates.companionId.None? || updates.companionId == Some(companionId) ==>
            CompanionIds(r) == CompanionIds(convs))
  {
  }

  /**
   * `addConversation` keeps the length when the companion is already
   * listed, and otherwise prepends, growing the list by one; either way the
   * companion is listed afterwards and the entries of other companions are
   * kept.
   */
  lemma UpsertSpec(convs: seq<Conversation>, conv: Conversation)
    ensures var r := Upsert(convs, conv);
      && (HasCompanion(convs, conv.companionId) ==>
            |r| == |convs| && CompanionIds(r) == CompanionIds(convs)
            && forall i :: 0 <= i < |convs| && convs[i].companionId == conv.companionId ==>
                 r[i] == ApplyConversationPatch(convs[i], AsPatch(conv)))
      && (!HasCompanion(convs, conv.companionId) ==> r == [conv] + convs && |r| == |convs| + 1)
      && HasCompanion(r, conv.companionId)
  {
    var r := Upsert(convs, conv);
    if HasCompanion(convs, conv.companionId) {
      MergeIntoSpec(convs, conv.companionId, AsPatch(conv));
      var i :| 0 <= i < |convs| && convs[i].companionId == conv.companionId;
      assert r[i].companionId == conv.companionId;
    } else {
      assert r[0] == conv;
    }
  }

  /** `addConversation` never lists a companion twice if it did not before. */
  lemma {:induction false} UpsertKeepsDistinct(convs: seq<Conversation>, conv: Conversation)
    requires Distinct(CompanionIds(convs))
    ensures Distinct(CompanionIds(Upsert(convs, conv)))
  {
    var r := Upsert(convs, conv);
    if HasCompanion(convs, conv.companionId) {
      MergeIntoSpec(convs, conv.companionId, AsPatch(conv));
    } else {
      var ids, ids' := CompanionIds(convs), CompanionIds(r);
      assert ids' == [conv.companionId] + ids;
      forall i, j | 0 <= i < j < |ids'| ensures ids'[i] != ids'[j] {
        if i == 0 {
          assert ids'[j] == convs[j - 1].companionId;
        }
      }
    }
  }

  // ------------------------------------------------------------ the store

  class AppStore {
    var user: Option<User>
    var token: Option<string>
    var isAuthenticated: bool
    var stories: seq<Story>
    var messages: map<string, seq<Message>>
    var conversations: seq<Conversation>
    var activeConversationId: Option<string>
    var currentMood: string
    var isLoading: bool
    /** The browser's `localStorage` entry "token". */
    var savedToken: Option<string>

    /** `isAuthenticated` is exactly "a user is set". */
    ghost predicate Valid()
      reads this
    {
      isAuthenticated <==> user.Some?
    }

    /** The initial state, with the token read back from storage. */
    constructor(saved: Option<string>)
      ensures Valid()
      ensures user == None && token == saved && !isAuthenticated && savedToken == saved
      ensures stories == [] && messages == map[] && conversations == []
      ensures activeConversationId == None && currentMood == "romantic" && !isLoading
    {
      user := None;
      token := saved;
      isAuthenticated := false;
      stories := [];
      messages := map[];
      conversations := [];
      activeConversationId := None;
      currentMood := "romantic";
      isLoading := false;
      savedToken := saved;
    }

    /**
     * `setUser(user, token)`: `token` is `None` for null or an omitted
     * argument, which keeps the old token (`??`); a non-empty token is also
     * written to storage.
     */
    method SetUser(u: Option<User>, t: Option<string>)
      modifies this
      ensures Valid()
      ensures user == u && isAuthenticated == u.Some?
      ensures token == (if t.Some? then t else old(token))
      ensures savedToken == (if t.Some? && t.value != "" then t else old(savedToken))
      ensures stories == old(stories) && messages == old(messages)
      ensures conversations == old(conversations)
      ensures activeConversationId == old(activeConversationId)
      ensures currentMood == old(currentMood) && isLoading == old(isLoading)
    {
      if t.Some? && t.value != "" {
        savedToken := t;
      }
      user := u;
      token := if t.Some? then t else token;
      isAuthenticated := u.Some?;
    }

    /** `logout()`: user, token and the stored token are cleared. */
    method Logout()
      modifies this
      ensures Valid()
      ensures user == None && token == None && !isAuthenticated && savedToken == None
      ensures stories == old(stories) && messages == old(messages)
      ensures conversations == old(conversations)
      ensures activeConversationId == old(activeConversationId)
      ensures currentMood == old(currentMood) && isLoading == old(isLoading)
    {
      savedToken := None;
      user := None;
      token := None;
      isAuthenticated := false;
    }

    method MarkStoryViewed(storyId: string)
      modifies this
      requires Valid()
      ensures Valid()
      ensures stories == MarkViewed(old(stories), storyId)
      ensures user == old(user) && token == old(token) && savedToken == old(savedToken)
      ensures messages == old(messages) && conversations == old(conversations)
      ensures activeConversationId == old(activeConversationId)
      ensures currentMood == old(currentMood) && isLoading == old(isLoading)
    {
      stories := MarkViewed(stories, storyId);
    }

    /** `setMessages`: exactly one companion's list is replaced. */
    method SetMessages(companionId: string, list: seq<Message>)
      modifies this
      requires Valid()
      ensures Valid()
      ensures messages == old(messages)[companionId := list]
      ensures forall k :: k in old(messages) && k != companionId ==> messages[k] == old(messages)[k]
      ensures user == old(user) && token == old(token) && savedToken == old(savedToken)
      ensures stories == old(stories) && conversations == old(conversations)
      ensures activeConversationId == old(activeConversationId)
      ensures currentMood == old(currentMood) && isLoading == old(isLoading)
    {
      messages := messages[companionId := list];
    }

    method AddMessage(companionId: string, message: Message)
      modifies this
      requires Valid()
      ensures Valid()
      ensures messages == Appended(old(messages), companionId, message)
      ensures user == old(user) && token == old(token) && savedToken == old(savedToken)
      ensures stories == old(stories) && conversations == old(conversations)
      ensures activeConversationId == old(activeConversationId)
      ensures currentMood == old(currentMood) && isLoading == old(isLoading)
    {
      messages := Appended(messages, companionId, message);
    }

    method UpdateMessage(companionId: string, messageId: string, updates: MessagePatch)
      modifies this
      requires Valid()
      ensures Valid()
      ensures messages == UpdatedLists(old(messages), companionId, messageId, updates)
      ensures user == old(user) && token == old(token) && savedToken == old(savedToken)
      ensures stories == old(stories) && conversations == old(conversations)
      ensures activeConversationId == old(activeConversationId)
      ensures currentMood == old(currentMood) && isLoading == old(isLoading)
    {
      messages := UpdatedLists(messages, companionId, messageId, updates);
    }

    method AddConversation(conv: Conversation)
      modifies this
      requires Valid()
      ensures Valid()
      ensures conversations == Upsert(old(conversations), conv)
      ensures user == old(user) && token == old(token) && savedToken == old(savedToken)
      ensures stories == old(stories) && messages == old(messages)
      ensures activeConversationId == old(activeConversationId)
      ensures currentMood == old(currentMood) && isLoading == old(isLoading)
    {
      conversations := Upsert(conversations, conv);
    }

    method UpdateConversation(companionId: string, updates: ConversationPatch)
      modifies this
      requires Valid()
      ensures Valid()
      ensures conversations == MergeInto(old(conversations), companionId, updates)
      ensures user == old(user) && token == old(token) && savedToken == old(savedToken)
      ensures stories == old(stories) && messages == old(messages)
      ensures activeConversationId == old(activeConversationId)
      ensures currentMood == old(currentMood) && isLoading == old(isLoading)
    {
      conversations := MergeInto(conversations, companionId, updates);
    }
  }
}
