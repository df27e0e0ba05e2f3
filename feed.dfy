/**
 * The message feed of a room as the view receives it: the records under
 * `/messages`, the room filter `orderByChild("roomId"), equalTo(chatId)`, the
 * `limitToLast` window and the "Load more" affordance.
 */
module Feed {
  import opened Wrappers
  import opened Presence

  type RoomId = string
  type MsgId = string

  /** Number of messages one page adds to the window (`PAGE_SIZE`). */
  const PAGE_SIZE: nat := 15

  /** An attachment: its storage URL and whether the payload is inline base64. */
  datatype FileRef = FileRef(url: string, isBase64: bool)

  /**
   * A message record as stored at `/messages/<id>`. `content` stands for the
   * fields this core only copies (author, text, ...); `likes` is `None` when
   * the record has no `likes` object.
   */
  datatype Message = Message(
    roomId: RoomId,
    createdAt: int,
    content: string,
    likeCount: int,
    likes: Option<set<Uid>>,
    file: Option<FileRef>)

  /** The users who have liked a message; a missing `likes` object means nobody. */
  function LikedBy(m: Message): set<Uid>
  {
    m.likes.GetOr({})
  }

  /** A record tagged with its store key, as produced for the view's `messages` array. */
  datatype Item = Item(id: MsgId, msg: Message)

  /** A subscription: the room filtered on and the `limitToLast` argument. */
  datatype Query = Query(roomId: RoomId, limitToLast: nat)

  /** `t` is a suffix of `s`. */
  predicate IsSuffix<T(==)>(t: seq<T>, s: seq<T>)
  {
    |t| <= |s| && s[|s| - |t|..] == t
  }

  /** The messages of one room, in the store's order (`equalTo(chatId)`). */
  function RoomFeed(all: seq<Item>, room: RoomId): (r: seq<Item>)
    ensures |r| <= |all|
    ensures forall i :: 0 <= i < |r| ==> r[i].msg.roomId == room
    ensures forall x :: x in r <==> x in all && x.msg.roomId == room
    decreases |all|
  {
    if all == [] then []
    else (if all[0].msg.roomId == room then [all[0]] else []) + RoomFeed(all[1..], room)
  }

  /** `limitToLast(n)`: the last `n` elements, or all of them when there are fewer. */
  function LimitToLast<T(==)>(s: seq<T>, n: nat): (r: seq<T>)
    ensures IsSuffix(r, s)
    ensures |r| <= n
    ensures |r| < n ==> r == s
  {
    if |s| <= n then s else s[|s| - n..]
  }

  /** What a subscription for `q` delivers when the store holds `all`. */
  function QueryResult(all: seq<Item>, q: Query): (r: seq<Item>)
    ensures |r| <= q.limitToLast
    ensures IsSuffix(r, RoomFeed(all, q.roomId))
    ensures forall i :: 0 <= i < |r| ==> r[i].msg.roomId == q.roomId
    ensures |RoomFeed(all, q.roomId)| <= q.limitToLast ==> r == RoomFeed(all, q.roomId)
    ensures |RoomFeed(all, q.roomId)| >= q.limitToLast ==> |r| == q.limitToLast
  {
    var feed := RoomFeed(all, q.roomId);
    var r := LimitToLast(feed, q.limitToLast);
    assert forall i :: 0 <= i < |r| ==> r[i] == feed[|feed| - |r| + i];
    r
  }

  /**
   * Growing the window from `n` to `m` keeps the smaller result as the tail of
   * the larger one: no message of the smaller window is dropped or repeated.
   */
  lemma WindowGrowthKeepsSuffix<T>(s: seq<T>, n: nat, m: nat)
    requires n <= m
    ensures IsSuffix(LimitToLast(s, n), LimitToLast(s, m))
    ensures |LimitToLast(s, n)| <= |LimitToLast(s, m)|
  {
    var small, large := LimitToLast(s, n), LimitToLast(s, m);
    assert large[|large| - |small|..] == s[|s| - |small|..];
  }

  /** `limitToUse || PAGE_SIZE`: a missing or zero argument means one page. */
  function EffectiveLimit(limitToUse: Option<nat>): (r: nat)
    ensures r > 0
    ensures limitToUse.Some? && limitToUse.value != 0 ==> r == limitToUse.value
    ensures limitToUse.None? || limitToUse.value == 0 ==> r == PAGE_SIZE
  {
    if limitToUse.Some? && limitToUse.value != 0 then limitToUse.value else PAGE_SIZE
  }

  /** `messages && messages.length >= PAGE_SIZE`: whether "Load more" is shown. */
  predicate CanLoadMore(messages: Option<seq<Item>>): (r: bool)
    ensures messages.None? ==> !r
    ensures messages.Some? && |messages.value| < PAGE_SIZE ==> !r
    ensures messages.Some? && |messages.value| >= PAGE_SIZE ==> r
  {
    messages.Some? && |messages.value| >= PAGE_SIZE
  }

  /**
   * When "Load more" is hidden for a loaded window of at least a page, the
   * window already holds the whole room.
   */
  lemma HiddenLoadMoreMeansWholeRoom(all: seq<Item>, q: Query)
    requires q.limitToLast >= PAGE_SIZE
    requires !CanLoadMore(Some(QueryResult(all, q)))
    ensures QueryResult(all, q) == RoomFeed(all, q.roomId)
  {
  }

  /**
   * The converse does not hold: a room of at least a page that the window
   * already holds completely still shows "Load more".
   */
  lemma LoadMoreShownForWholeRoom(all: seq<Item>, q: Query)
    requires PAGE_SIZE <= |RoomFeed(all, q.roomId)| <= q.limitToLast
    ensures QueryResult(all, q) == RoomFeed(all, q.roomId)
    ensures CanLoadMore(Some(QueryResult(all, q)))
  {
  }

  /**
   * The room filter keeps the store's order: filtering a concatenation is the
   * concatenation of the filtered parts, so older messages stay before newer ones.
   */
  lemma {:induction false} RoomFeedOfConcat(a: seq<Item>, b: seq<Item>, room: RoomId)
    ensures RoomFeed(a + b, room) == RoomFeed(a, room) + RoomFeed(b, room)
    decreases |a|
  {
    if a != [] {
      assert (a + b)[0] == a[0];
      assert (a + b)[1..] == a[1..] + b;
      RoomFeedOfConcat(a[1..], b, room);
    } else {
      assert a + b == b;
    }
  }
}
