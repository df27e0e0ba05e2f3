/**
 * Deleting a message (`handleDelete`): the multi-path update that removes
 * the message and keeps the room's denormalised `lastMessage` consistent,
 * and the gating of the writes and of the storage deletion that follow.
 */
module Delete {
  import opened Wrappers
  import opened Feed

  /** `/messages/<msgId>` */
  function MessagePath(msgId: MsgId): (r: string)
    ensures |r| == 10 + |msgId| && r[..10] == "/messages/" && r[10..] == msgId
  {
    "/messages/" + msgId
  }

  /** `/rooms/<chatId>/lastMessage` */
  function LastMessagePath(chatId: RoomId): (r: string)
    ensures |r| == 7 + |chatId| + 12
    ensures r[..7] == "/rooms/" && r[7..|r| - 12] == chatId && r[|r| - 12..] == "/lastMessage"
  {
    "/rooms/" + chatId + "/lastMessage"
  }

  /** A message path and a `lastMessage` path never coincide. */
  lemma PathsDistinct(msgId: MsgId, chatId: RoomId)
    ensures MessagePath(msgId) != LastMessagePath(chatId)
  {
    assert MessagePath(msgId)[1] == 'm';
    assert LastMessagePath(chatId)[1] == 'r';
  }

  /**
   * The values written at a path. `Null` deletes the path; a
   * `LastMessageCopy` is `{...item, msgId: item.id}`: the item's fields, its
   * `id`, and `msgId`.
   */
  datatype StoreValue =
    | Null
    | MessageNode(msg: Message)
    | LastMessageCopy(fields: Message, id: MsgId, msgId: MsgId)

  /** The `lastMessage` record copied from a window item. */
  function LastMessageOf(item: Item): (r: StoreValue)
    ensures r.LastMessageCopy? && r.msgId == item.id
    ensures r.fields == item.msg && r.id == item.id
  {
    LastMessageCopy(item.msg, item.id, item.id)
  }

  /**
   * The multi-path update for deleting `msgId` when the loaded window is
   * `window`: the message is deleted; if it is the window's last message the
   * room's `lastMessage` becomes the one before it, or is deleted when there
   * is none; otherwise `lastMessage` is not written; no other path appears.
   */
  predicate IsDeleteUpdates(window: seq<Item>, chatId: RoomId, msgId: MsgId, updates: map<string, StoreValue>)
    requires |window| > 0
  {
    var isLast := window[|window| - 1].id == msgId;
    && MessagePath(msgId) in updates && updates[MessagePath(msgId)] == Null
    && (isLast && |window| > 1 ==>
          LastMessagePath(chatId) in updates && updates[LastMessagePath(chatId)] == LastMessageOf(window[|window| - 2]))
    && (isLast && |window| == 1 ==>
          LastMessagePath(chatId) in updates && updates[LastMessagePath(chatId)] == Null)
    && (!isLast ==> LastMessagePath(chatId) !in updates)
    && updates.Keys <= {MessagePath(msgId), LastMessagePath(chatId)}
  }

  /** The update map is built key by key (lines 163-178). */
  method BuildDeleteUpdates(window: seq<Item>, chatId: RoomId, msgId: MsgId) returns (updates: map<string, StoreValue>)
    requires |window| > 0
    ensures IsDeleteUpdates(window, chatId, msgId, updates)
  {
    PathsDistinct(msgId, chatId);
    var isLast := window[|window| - 1].id == msgId;
    updates := map[];
    updates := updates[MessagePath(msgId) := Null];
    if isLast && |window| > 1 {
      updates := updates[LastMessagePath(chatId) := LastMessageOf(window[|window| - 2])];
    }
    if isLast && |window| == 1 {
      updates := updates[LastMessagePath(chatId) := Null];
    }
  }

  /** The description of the delete update leaves no choice. */
  lemma DeleteUpdatesUnique(window: seq<Item>, chatId: RoomId, msgId: MsgId, u1: map<string, StoreValue>, u2: map<string, StoreValue>)
    requires |window| > 0
    requires IsDeleteUpdates(window, chatId, msgId, u1) && IsDeleteUpdates(window, chatId, msgId, u2)
    ensures u1 == u2
  {
    PathsDistinct(msgId, chatId);
    assert u1.Keys == u2.Keys;
    forall p | p in u1
      ensures u1[p] == u2[p]
    {
    }
  }

  /**
   * A multi-path update applied as one step: every path it names is set, or
   * deleted when set to `Null`; every other path keeps its value.
   */
  function ApplyUpdates(store: map<string, StoreValue>, updates: map<string, StoreValue>): (r: map<string, StoreValue>)
    ensures forall p :: p in updates && updates[p] == Null ==> p !in r
    ensures forall p :: p in updates && updates[p] != Null ==> p in r && r[p] == updates[p]
    ensures forall p :: p !in updates ==> (p in r <==> p in store)
    ensures forall p :: p !in updates && p in r ==> r[p] == store[p]
  {
    map p | p in store.Keys + updates.Keys && (p in updates ==> updates[p] != Null) ::
      if p in updates then updates[p] else store[p]
  }

  /**
   * What committing the delete update does to the store: the message is gone,
   * `lastMessage` is the second-to-last loaded message, gone, or untouched,
   * and every other path is unchanged.
   */
  lemma DeleteCascade(store: map<string, StoreValue>, window: seq<Item>, chatId: RoomId, msgId: MsgId, updates: map<string, StoreValue>)
    requires |window| > 0 && IsDeleteUpdates(window, chatId, msgId, updates)
    ensures var r := ApplyUpdates(store, updates);
      var last := LastMessagePath(chatId);
      var isLast := window[|window| - 1].id == msgId;
      && MessagePath(msgId) !in r
      && (isLast && |window| > 1 ==> last in r && r[last] == LastMessageOf(window[|window| - 2]))
      && (isLast && |window| == 1 ==> last !in r)
      && (!isLast ==> (last in r <==> last in store) && (last in r ==> r[last] == store[last]))
      && (forall p :: p != MessagePath(msgId) && p != last ==> (p in r <==> p in store))
      && (forall p :: p != MessagePath(msgId) && p != last && p in r ==> r[p] == store[p])
  {
  }

  /**
   * The cascade picks the true successor when the window is a current
   * `limitToLast` snapshot of at least two messages: deleting the room's last
   * message leaves `lastMessage` naming the new last message of the room, or
   * absent when the room becomes empty.
   */
  lemma CascadeMatchesFeed(feed: seq<Item>, n: nat, chatId: RoomId, updates: map<string, StoreValue>)
    requires n >= 2 && |feed| > 0
    requires |LimitToLast(feed, n)| > 0
    requires IsDeleteUpdates(LimitToLast(feed, n), chatId, feed[|feed| - 1].id, updates)
    ensures var rest := feed[..|feed| - 1];
      && LastMessagePath(chatId) in updates
      && (rest == [] ==> updates[LastMessagePath(chatId)] == Null)
      && (rest != [] ==> updates[LastMessagePath(chatId)] == LastMessageOf(rest[|rest| - 1]))
  {
    var w := LimitToLast(feed, n);
    assert w[|w| - 1] == feed[|feed| - 1];
    if |w| == 1 {
      assert |feed| == 1;
    } else {
      assert w[|w| - 2] == feed[|feed| - 2];
    }
  }

  /** Success or failure of a store or storage call, with the error text. */
  datatype Outcome = Ok | Failed(message: string)

  /** A toast pushed to the user. */
  datatype Notice = Info(text: string) | Error(text: string)

  const DELETED_TEXT: string := "Message has been deleted"

  /** How `handleDelete` ended. */
  datatype DeleteStatus =
    | Declined      // the confirm dialog was answered "no" (lines 159-161)
    | NoWindowTail  // the window was empty: reading its last element throws (line 163)
    | CommitFailed  // the multi-path update was rejected (lines 188-194)
    | Deleted       // the multi-path update committed

  /** The realtime database as a map from path to value, and the objects in file storage. */
  class Backend {
    var nodes: map<string, StoreValue>
    var objects: set<string>

    /** `update(dbRef(database), updates)`: all or nothing, as the store reports. */
    method MultiPathUpdate(updates: map<string, StoreValue>, commit: Outcome)
      modifies this
      ensures nodes == if commit.Ok? then ApplyUpdates(old(nodes), updates) else old(nodes)
      ensures objects == old(objects)
    {
      if commit.Ok? {
        nodes := ApplyUpdates(nodes, updates);
      }
    }

    /** `deleteObject(storageRef(storage, url))`, as storage reports. */
    method DeleteObject(url: string, removal: Outcome)
      modifies this
      ensures objects == if removal.Ok? then old(objects) - {url} else old(objects)
      ensures nodes == old(nodes)
    {
      if removal.Ok? {
        objects := objects - {url};
      }
    }
  }

  /** The attachment lives in file storage (it exists and is not inline base64). */
  predicate StoredExternally(file: Option<FileRef>): (r: bool)
    ensures file.None? ==> !r
    ensures file.Some? ==> (r <==> !file.value.isBase64)
  {
    file.Some? && !file.value.isBase64
  }

  /**
   * `handleDelete(msgId, file)`. The confirm answer, the commit result and the
   * storage result are inputs. Nothing is written when the user declines, the
   * window is empty or the commit fails; storage is touched only after a
   * successful commit of an externally stored file, and a storage failure
   * leaves the committed deletion in place.
   */
  method HandleDelete(backend: Backend, window: seq<Item>, chatId: RoomId, msgId: MsgId, file: Option<FileRef>,
                      confirmed: bool, commit: Outcome, removal: Outcome)
    returns (status: DeleteStatus, updates: map<string, StoreValue>, notices: seq<Notice>)
    modifies backend
    ensures !confirmed ==> status == Declined
    ensures confirmed && window == [] ==> status == NoWindowTail
    ensures confirmed && window != [] ==> (status == CommitFailed <==> commit.Failed?)
    ensures confirmed && window != [] ==> IsDeleteUpdates(window, chatId, msgId, updates)
    ensures status in {Declined, NoWindowTail} ==> updates == map[] && notices == [] && unchanged(backend)
    ensures status == CommitFailed ==>
      notices == [Error(commit.message)] && backend.nodes == old(backend.nodes) && backend.objects == old(backend.objects)
    ensures status == Deleted ==> backend.nodes == ApplyUpdates(old(backend.nodes), updates)
    ensures status == Deleted && StoredExternally(file) && removal.Ok? ==>
      backend.objects == old(backend.objects) - {file.value.url} && notices == [Info(DELETED_TEXT)]
    ensures status == Deleted && StoredExternally(file) && removal.Failed? ==>
      backend.objects == old(backend.objects) && notices == [Info(DELETED_TEXT), Error(removal.message)]
    ensures status == Deleted && !StoredExternally(file) ==>
      backend.objects == old(backend.objects) && notices == [Info(DELETED_TEXT)]
  {
    updates := map[];
    notices := [];
    if !confirmed {
      return Declined, updates, notices;
    }
    if window == [] {
      return NoWindowTail, updates, notices;
    }
    updates := BuildDeleteUpdates(window, chatId, msgId);
    backend.MultiPathUpdate(updates, commit);
    if commit.Failed? {
      notices := notices + [Error(commit.message)];
      return CommitFailed, updates, notices;
    }
    notices := notices + [Info(DELETED_TEXT)];
    status := Deleted;
    if StoredExternally(file) {
      backend.DeleteObject(file.value.url, removal);
      if removal.Failed? {
        notices := notices + [Error(removal.message)];
      }
    }
  }
}
