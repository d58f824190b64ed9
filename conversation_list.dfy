/**
 * The sidebar of components/chat/ConversationList.tsx: conversations are
 * derived from the store's per-companion message lists (those that are
 * non-empty), shown newest first; the current companion comes from the
 * URL; and up to five other companions are offered to start a chat.
 */
module ConversationList {
  import opened Wrappers
  import opened Strings
  import opened Types
  import opened Lists
  import Sorting
  import CompanionsData

  /**
   * `Object.keys(messages).filter(id => messages[id]?.length > 0)`; `keys`
   * is the object's own keys in enumeration order.
   */
  function ActiveCompanionIds(keys: seq<string>, messages: map<string, seq<Message>>): (r: seq<string>)
    ensures forall id :: id in r <==> id in keys && id in messages && |messages[id]| > 0
    ensures Subsequence(r, keys)
  {
    Filter(keys, (id: string) => id in messages && |messages[id]| > 0)
  }

  datatype Item = Item(companionId: string, companion: Option<Companion>, lastMessage: string, lastMessageAt: int)

  function LastMessageAt(item: Item): int { item.lastMessageAt }

  /**
   * One item per active id: its companion if known, and the content and
   * time of the list's last message (`nowMs` stands for `new Date()` when
   * there is none).
   */
  function ItemFor(companionId: string, companions: seq<Companion>, messages: map<string, seq<Message>>,
                   nowMs: int): (item: Item)
    ensures item.companionId == companionId
    ensures item.companion == CompanionsData.FindById(companions, companionId)
    ensures companionId in messages && |messages[companionId]| > 0 ==>
      var last := messages[companionId][|messages[companionId]| - 1];
      item.lastMessage == last.content && item.lastMessageAt == last.createdAt
  {
    var list := if companionId in messages then messages[companionId] else [];
    if list == [] then Item(companionId, CompanionsData.FindById(companions, companionId), "", nowMs)
    else
      var last := list[|list| - 1];
      Item(companionId, CompanionsData.FindById(companions, companionId), last.content, last.createdAt)
  }

  function Items(ids: seq<string>, companions: seq<Companion>, messages: map<string, seq<Message>>,
                 nowMs: int): (r: seq<Item>)
    ensures |r| == |ids|
    ensures forall i :: 0 <= i < |r| ==> r[i] == ItemFor(ids[i], companions, messages, nowMs)
  {
    seq(|ids|, i requires 0 <= i < |ids| => ItemFor(ids[i], companions, messages, nowMs))
  }

  /** `conversationItems`: the active chats, newest last message first. */
  function ConversationItems(keys: seq<string>, companions: seq<Companion>,
                             messages: map<string, seq<Message>>, nowMs: int): (r: seq<Item>)
    ensures multiset(r) == multiset(Items(ActiveCompanionIds(keys, messages), companions, messages, nowMs))
    ensures Sorting.SortedDescBy(r, LastMessageAt)
    ensures |r| == |ActiveCompanionIds(keys, messages)|
  {
    Sorting.SortDescBy(Items(ActiveCompanionIds(keys, messages), companions, messages, nowMs), LastMessageAt)
  }

  /** The item of a non-empty chat: its id has messages and it carries the last one. */
  predicate ActiveItem(messages: map<string, seq<Message>>, item: Item)
  {
    && item.companionId in messages && |messages[item.companionId]| > 0
    && item.lastMessage == messages[item.companionId][|messages[item.companionId]| - 1].content
  }

  /** Every item is an active chat, and carries its last message. */
  lemma ItemsAreActiveChats(keys: seq<string>, companions: seq<Companion>,
                            messages: map<string, seq<Message>>, nowMs: int)
    ensures var r := ConversationItems(keys, companions, messages, nowMs);
      forall i :: 0 <= i < |r| ==> ActiveItem(messages, r[i])
  {
    var ids := ActiveCompanionIds(keys, messages);
    var items := Items(ids, companions, messages, nowMs);
    var r := ConversationItems(keys, companions, messages, nowMs);
    assert forall x :: x in items ==> ActiveItem(messages, x) by {
      forall x | x in items ensures ActiveItem(messages, x) {
        var j :| 0 <= j < |items| && items[j] == x;
        assert ids[j] in ids;
      }
    }
    forall i | 0 <= i < |r| ensures ActiveItem(messages, r[i]) {
      assert r[i] in multiset(items);
    }
  }

  // ------------------------------------------------------------ the current companion

  const ChatPrefix := "/chat/"

  /** `pathname.startsWith("/chat/") ? pathname.split("/chat/")[1] : null`. */
  function CurrentCompanionId(pathname: string): (r: Option<string>)
    ensures r.Some? <==> ChatPrefix <= pathname
  {
    if ChatPrefix <= pathname then Some(BeforeFirst(pathname[|ChatPrefix|..], ChatPrefix)) else None
  }

  /** The chat links `/chat/${id}` lead back to `id`, for any id that does not itself hold "/chat/". */
  lemma CurrentIdOfLink(id: string)
    requires !Contains(id, ChatPrefix)
    ensures CurrentCompanionId(ChatPrefix + id) == Some(id)
  {
    var p := ChatPrefix + id;
    assert p[|ChatPrefix|..] == id;
    var r := BeforeFirst(id, ChatPrefix);
    if |r| < |id| {
      ContainsAt(id, ChatPrefix, |r|);
      assert false;
    }
    assert r == id[..|r|] == id;
  }

  // ------------------------------------------------------------ quick start

  const QuickStartLimit: nat := 5

  /** `companions.filter(c => !activeIds.includes(c.id)).slice(0, 5)`. */
  function QuickStart(companions: seq<Companion>, activeIds: seq<string>): (r: seq<Companion>)
    ensures |r| <= QuickStartLimit
    ensures forall i :: 0 <= i < |r| ==> r[i] in companions && r[i].id !in activeIds
    ensures r <= Filter(companions, (c: Companion) => c.id !in activeIds)
  {
    var others := Filter(companions, (c: Companion) => c.id !in activeIds);
    if |others| <= QuickStartLimit then others else others[..QuickStartLimit]
  }

  /** The quick-start row is shown only when companions are loaded and some have no chat yet. */
  predicate ShowsQuickStart(companions: seq<Companion>, items: seq<Item>)
  {
    |companions| > 0 && |items| < |companions|
  }

  /** The row lists up to five companions, all of them when fewer than five have no chat. */
  lemma QuickStartTakesFirstFive(companions: seq<Companion>, activeIds: seq<string>)
    ensures var others := Filter(companions, (c: Companion) => c.id !in activeIds);
      |QuickStart(companions, activeIds)| == if |others| < QuickStartLimit then |others| else QuickStartLimit
  {
  }
}
