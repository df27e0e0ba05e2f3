/**
 * The message view's pagination and scroll state (`Messages`): the `limit`
 * counter, the listener registered on the messages feed, the loaded window
 * and the scroll position of the list element.
 */
module Pagination {
  import opened Wrappers
  import opened Feed
  import opened Scroll

  class MessagesView {
    /** The room shown (`chatId` from the route). */
    var chatId: RoomId
    /** The `limit` state: the window size the next "Load more" asks for. */
    var limit: nat
    /** The queries with a listener registered on `/messages`, in registration order. */
    var listeners: seq<Query>
    /** The `messages` state: `None` until the first snapshot arrives. */
    var messages: Option<seq<Item>>
    /** The list element's `scrollTop`, `scrollHeight` and `clientHeight`. */
    var scrollTop: int
    var scrollHeight: int
    var clientHeight: int

    /**
     * At most one listener, for the room shown, whose window is at least a
     * page behind `limit`; `limit` is a positive multiple of the page size.
     */
    ghost predicate Valid()
      reads this
    {
      && limit >= PAGE_SIZE && limit % PAGE_SIZE == 0
      && |listeners| <= 1
      && forall i :: 0 <= i < |listeners| ==>
           listeners[i].roomId == chatId && listeners[i].limitToLast + PAGE_SIZE <= limit
    }

    /** First render: `useState(null)`, `useState(PAGE_SIZE)`, nothing subscribed yet. */
    constructor (chatId: RoomId, scrollHeight: int, clientHeight: int)
      ensures Valid()
      ensures this.chatId == chatId && limit == PAGE_SIZE && listeners == [] && messages == None
      ensures this.scrollTop == 0 && this.scrollHeight == scrollHeight && this.clientHeight == clientHeight
    {
      this.chatId := chatId;
      limit := PAGE_SIZE;
      listeners := [];
      messages := None;
      this.scrollTop := 0;
      this.scrollHeight := scrollHeight;
      this.clientHeight := clientHeight;
    }

    /**
     * `loadMessages(limitToUse)`: `off` drops every listener before `onValue`
     * registers the new one, and `limit` grows by one page. It is called with
     * no argument or with the current `limit`.
     */
    method LoadMessages(limitToUse: Option<nat>)
      requires Valid()
      requires limitToUse.Some? ==> limitToUse.value <= limit
      modifies this
      ensures Valid()
      ensures listeners == [Query(chatId, EffectiveLimit(limitToUse))]
      ensures limit == old(limit) + PAGE_SIZE
      ensures chatId == old(chatId) && messages == old(messages)
      ensures scrollTop == old(scrollTop) && scrollHeight == old(scrollHeight) && clientHeight == old(clientHeight)
    {
      listeners := [];
      listeners := listeners + [Query(chatId, EffectiveLimit(limitToUse))];
      limit := limit + PAGE_SIZE;
    }

    /** The mount effect's `loadMessages()`: one page of the current room. */
    method Mount()
      requires Valid()
      modifies this
      ensures Valid()
      ensures listeners == [Query(chatId, PAGE_SIZE)]
      ensures limit == old(limit) + PAGE_SIZE
      ensures chatId == old(chatId) && messages == old(messages)
      ensures scrollTop == old(scrollTop) && scrollHeight == old(scrollHeight) && clientHeight == old(clientHeight)
    {
      LoadMessages(None);
    }

    /** The mount effect's delayed `node.scrollTop = node.scrollHeight`. */
    method ScrollToBottom()
      modifies this
      ensures scrollTop == scrollHeight
      ensures chatId == old(chatId) && limit == old(limit) && listeners == old(listeners) && messages == old(messages)
      ensures scrollHeight == old(scrollHeight) && clientHeight == old(clientHeight)
    {
      scrollTop := scrollHeight;
    }

    /** The effect's cleanup, `off(messagesRef)`: no listener is left. */
    method Unmount()
      requires Valid()
      modifies this
      ensures Valid()
      ensures listeners == []
      ensures chatId == old(chatId) && limit == old(limit) && messages == old(messages)
      ensures scrollTop == old(scrollTop) && scrollHeight == old(scrollHeight) && clientHeight == old(clientHeight)
    {
      listeners := [];
    }

    /**
     * A new `chatId`: the old effect is cleaned up and the new one runs. The
     * only listener is then for the new room; `limit` is not reset and the
     * old room's messages stay until the first snapshot arrives.
     */
    method ChangeRoom(newChatId: RoomId)
      requires Valid()
      modifies this
      ensures Valid()
      ensures chatId == newChatId && listeners == [Query(newChatId, PAGE_SIZE)]
      ensures limit == old(limit) + PAGE_SIZE
      ensures messages == old(messages)
      ensures scrollTop == old(scrollTop) && scrollHeight == old(scrollHeight) && clientHeight == old(clientHeight)
    {
      Unmount();
      chatId := newChatId;
      Mount();
    }

    /**
     * The store pushes a snapshot while it holds `all`: each registered
     * listener receives its query's result, sets `messages` and pins the view
     * to the bottom when it was near it. Layout is not yet updated here, so
     * the test uses the current heights.
     */
    method Deliver(all: seq<Item>)
      requires Valid()
      modifies this
      ensures Valid()
      ensures listeners == [] ==> messages == old(messages) && scrollTop == old(scrollTop)
      ensures listeners != [] ==> messages == Some(QueryResult(all, listeners[0]))
      ensures listeners != [] ==> forall i :: 0 <= i < |messages.value| ==> messages.value[i].msg.roomId == chatId
      ensures listeners != [] ==>
        scrollTop == if ShouldScrollToBottom(old(scrollTop), scrollHeight, clientHeight, DEFAULT_THRESHOLD)
                     then scrollHeight else old(scrollTop)
      ensures chatId == old(chatId) && limit == old(limit) && listeners == old(listeners)
      ensures scrollHeight == old(scrollHeight) && clientHeight == old(clientHeight)
    {
      if listeners != [] {
        messages := Some(QueryResult(all, listeners[0]));
        if ShouldScrollToBottom(scrollTop, scrollHeight, clientHeight, DEFAULT_THRESHOLD) {
          scrollTop := scrollHeight;
        }
      }
    }

    /** The browser lays the list out again after a render. */
    method Relayout(newScrollHeight: int, newClientHeight: int)
      modifies this
      ensures scrollHeight == newScrollHeight && clientHeight == newClientHeight
      ensures chatId == old(chatId) && limit == old(limit) && listeners == old(listeners) && messages == old(messages)
      ensures scrollTop == old(scrollTop)
    {
      scrollHeight, clientHeight := newScrollHeight, newClientHeight;
    }

    /**
     * "Load more" (`onLoadMore`): the current height is remembered and the
     * window becomes `limit`, at least a page more than before.
     */
    method OnLoadMore() returns (oldHeight: int)
      requires Valid()
      modifies this
      ensures Valid()
      ensures oldHeight == scrollHeight
      ensures listeners == [Query(chatId, old(limit))]
      ensures old(listeners) != [] ==> old(listeners[0].limitToLast) + PAGE_SIZE <= listeners[0].limitToLast
      ensures limit == old(limit) + PAGE_SIZE
      ensures chatId == old(chatId) && messages == old(messages)
      ensures scrollTop == old(scrollTop) && scrollHeight == old(scrollHeight) && clientHeight == old(clientHeight)
    {
      oldHeight := scrollHeight;
      LoadMessages(Some(limit));
    }

    /**
     * The delayed correction after "Load more": `scrollTop` becomes the growth
     * of the content since `oldHeight`.
     */
    method RestoreAnchor(oldHeight: int)
      modifies this
      ensures scrollTop + oldHeight == scrollHeight
      ensures chatId == old(chatId) && limit == old(limit) && listeners == old(listeners) && messages == old(messages)
      ensures scrollHeight == old(scrollHeight) && clientHeight == old(clientHeight)
    {
      scrollTop := scrollHeight - oldHeight;
    }

    /** Whether "Load more" is shown (line 246). */
    predicate ShowsLoadMore(): (r: bool)
      reads this
      ensures r <==> messages.Some? && |messages.value| >= PAGE_SIZE
    {
      CanLoadMore(messages)
    }
  }

  /**
   * Two snapshots of the same store, before and after "Load more": every
   * message of the earlier window is in the later one at the same place
   * from the end, so growing the window drops and repeats nothing.
   */
  lemma LoadMoreExtendsWindow(all: seq<Item>, before: Query, after: Query)
    requires before.roomId == after.roomId && before.limitToLast <= after.limitToLast
    ensures IsSuffix(QueryResult(all, before), QueryResult(all, after))
  {
    WindowGrowthKeepsSuffix(RoomFeed(all, before.roomId), before.limitToLast, after.limitToLast);
  }

  /**
   * Mount, first snapshot, "Load more", next snapshot, with the store
   * unchanged in between: the first window is one page, the second two pages,
   * and the first is the tail of the second.
   */
  method LoadMoreScenario(all: seq<Item>, chatId: RoomId, height: int, client: int)
    returns (first: seq<Item>, second: seq<Item>)
    ensures first == LimitToLast(RoomFeed(all, chatId), PAGE_SIZE)
    ensures second == LimitToLast(RoomFeed(all, chatId), 2 * PAGE_SIZE)
    ensures IsSuffix(first, second)
  {
    var view := new MessagesView(chatId, height, client);
    view.Mount();
    view.Deliver(all);
    first := view.messages.value;
    var oldHeight := view.OnLoadMore();
    view.Deliver(all);
    second := view.messages.value;
    LoadMoreExtendsWindow(all, Query(chatId, PAGE_SIZE), Query(chatId, 2 * PAGE_SIZE));
  }

  /**
   * After switching from one room to another, the next snapshot holds only
   * messages of the new room.
   */
  method ChangeRoomScenario(all: seq<Item>, oldRoom: RoomId, newRoom: RoomId, height: int, client: int)
    returns (shown: seq<Item>)
    ensures shown == LimitToLast(RoomFeed(all, newRoom), PAGE_SIZE)
    ensures forall i :: 0 <= i < |shown| ==> shown[i].msg.roomId == newRoom
  {
    var view := new MessagesView(oldRoom, height, client);
    view.Mount();
    view.Deliver(all);
    view.ChangeRoom(newRoom);
    view.Deliver(all);
    shown := view.messages.value;
  }
}
