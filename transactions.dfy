/**
 * The two transaction bodies of the message view: the update functions given
 * to the store's atomic read-modify-write on `/rooms/<chatId>/admins`
 * (`handleAdmin`) and on `/messages/<msgId>` (`handleLike`). Each is stated
 * as a function from the current value to the new value and the alert shown,
 * and as the in-place body that mutates the object the store passes in.
 */
module Transactions {
  import opened Wrappers
  import opened Presence
  import opened Feed

  /** The alert `handleAdmin` shows. */
  datatype AdminAlert = PermissionRemoved | PermissionGranted

  function AdminAlertText(a: AdminAlert): (r: string)
    ensures a == PermissionRemoved <==> r == "Admin permission removed"
    ensures a == PermissionGranted <==> r == "Admin permission granted"
  {
    match a
    case PermissionRemoved => "Admin permission removed"
    case PermissionGranted => "Admin permission granted"
  }

  /** The alert `handleLike` shows. */
  datatype LikeAlert = LikeRemoved | LikeAdded

  function LikeAlertText(a: LikeAlert): (r: string)
    ensures a == LikeRemoved <==> r == "Like removed"
    ensures a == LikeAdded <==> r == "Like added"
  {
    match a
    case LikeRemoved => "Like removed"
    case LikeAdded => "Like added"
  }

  /** New `admins` value and alert of one run of the admin transaction body. */
  datatype AdminOutcome = AdminOutcome(admins: Option<set<Uid>>, alert: Option<AdminAlert>)

  /**
   * The admin toggle: a missing `admins` map is written back as it is with no
   * alert; otherwise `uid` is flipped and nobody else changes.
   */
  function AdminUpdate(current: Option<set<Uid>>, uid: Uid): (r: AdminOutcome)
    ensures current.None? ==> r == AdminOutcome(None, None)
    ensures current.Some? ==> r.admins.Some? && r.alert.Some?
    ensures current.Some? ==> (uid in r.admins.value <==> uid !in current.value)
    ensures current.Some? ==> forall v :: v != uid ==> (v in r.admins.value <==> v in current.value)
    ensures current.Some? ==> (r.alert == Some(PermissionGranted) <==> uid in r.admins.value)
  {
    match current
    case None => AdminOutcome(None, None)
    case Some(admins) =>
      if uid in admins then AdminOutcome(Some(admins - {uid}), Some(PermissionRemoved))
      else AdminOutcome(Some(admins + {uid}), Some(PermissionGranted))
  }

  /** Toggling the same user twice restores `admins`, and the two alerts differ. */
  lemma AdminUpdateTwice(current: Option<set<Uid>>, uid: Uid)
    ensures AdminUpdate(AdminUpdate(current, uid).admins, uid).admins == current
    ensures current.Some? ==> AdminUpdate(AdminUpdate(current, uid).admins, uid).alert != AdminUpdate(current, uid).alert
  {
    if current.Some? {
      ToggleTwice(current.value, uid);
      assert AdminUpdate(current, uid).admins == Some(Toggle(current.value, uid));
    }
  }

  /**
   * The admin transaction body, in place: `admins[uid] = null` or
   * `admins[uid] = true` on the object passed in, which is returned.
   */
  method AdminTransactionBody(admins: PresenceMap?, uid: Uid) returns (result: PresenceMap?, alert: Option<AdminAlert>)
    modifies admins
    ensures result == admins
    ensures AdminOutcome(ValueOf(admins), alert) == AdminUpdate(old(ValueOf(admins)), uid)
  {
    alert := None;
    if admins != null {
      if uid in admins.keys {
        admins.Delete(uid);
        alert := Some(PermissionRemoved);
      } else {
        admins.Put(uid);
        alert := Some(PermissionGranted);
      }
    }
    result := admins;
  }

  /** `likeCount` counts exactly the users in `likes`. */
  predicate CountMatches(m: Message)
  {
    m.likeCount == |LikedBy(m)|
  }

  /**
   * Flipping one user's like on a present message: the count moves by exactly
   * one in the direction of the flip, a missing `likes` object is created when
   * a like is added, and no other field or user changes.
   */
  function ToggleLike(m: Message, uid: Uid): (r: Message)
    ensures uid in LikedBy(m) ==> uid !in LikedBy(r) && r.likeCount == m.likeCount - 1
    ensures uid !in LikedBy(m) ==> uid in LikedBy(r) && r.likeCount == m.likeCount + 1
    ensures forall v :: v != uid ==> (v in LikedBy(r) <==> v in LikedBy(m))
    ensures r.likes.Some?
    ensures r == m.(likeCount := r.likeCount, likes := r.likes)
  {
    if m.likes.Some? && uid in m.likes.value then
      m.(likeCount := m.likeCount - 1, likes := Some(m.likes.value - {uid}))
    else
      m.(likeCount := m.likeCount + 1, likes := Some(LikedBy(m) + {uid}))
  }

  /** New message value and alert of one run of the like transaction body. */
  datatype LikeOutcome = LikeOutcome(msg: Option<Message>, alert: Option<LikeAlert>)

  /** The like transaction: a missing message is returned as it is with no alert. */
  function LikeUpdate(current: Option<Message>, uid: Uid): (r: LikeOutcome)
    ensures current.None? ==> r == LikeOutcome(None, None)
    ensures current.Some? ==> r.msg == Some(ToggleLike(current.value, uid)) && r.alert.Some?
    ensures current.Some? ==> (r.alert == Some(LikeAdded) <==> uid in LikedBy(r.msg.value))
  {
    match current
    case None => LikeOutcome(None, None)
    case Some(m) =>
      LikeOutcome(Some(ToggleLike(m, uid)), Some(if uid in LikedBy(m) then LikeRemoved else LikeAdded))
  }

  /** One toggle keeps `likeCount == |likes|`. */
  lemma ToggleLikeKeepsCount(m: Message, uid: Uid)
    requires CountMatches(m)
    ensures CountMatches(ToggleLike(m, uid))
  {
    assert LikedBy(ToggleLike(m, uid)) == Toggle(LikedBy(m), uid);
    ToggleSize(LikedBy(m), uid);
  }

  /**
   * The same user toggling twice restores the message, except that a missing
   * `likes` object comes back as an empty one (which the store does not keep).
   */
  lemma ToggleLikeTwice(m: Message, uid: Uid)
    ensures ToggleLike(ToggleLike(m, uid), uid) == m.(likes := Some(LikedBy(m)))
  {
    var once := ToggleLike(m, uid);
    assert LikedBy(once) == Toggle(LikedBy(m), uid);
    ToggleTwice(LikedBy(m), uid);
    assert LikedBy(ToggleLike(once, uid)) == Toggle(LikedBy(once), uid);
  }

  /** The message after the transactions of `uids` commit in that order. */
  function ApplyLikes(m: Message, uids: seq<Uid>): Message
    decreases |uids|
  {
    if uids == [] then m else ApplyLikes(ToggleLike(m, uids[0]), uids[1..])
  }

  /** Any sequence of committed like toggles keeps `likeCount == |likes|`. */
  lemma {:induction false} ApplyLikesKeepsCount(m: Message, uids: seq<Uid>)
    requires CountMatches(m)
    ensures CountMatches(ApplyLikes(m, uids))
    decreases |uids|
  {
    if uids != [] {
      ToggleLikeKeepsCount(m, uids[0]);
      ApplyLikesKeepsCount(ToggleLike(m, uids[0]), uids[1..]);
    }
  }

  /** The likers after a sequence of toggles are those of the set toggles. */
  lemma {:induction false} ApplyLikesLikers(m: Message, uids: seq<Uid>)
    ensures LikedBy(ApplyLikes(m, uids)) == ToggleAll(LikedBy(m), uids)
    decreases |uids|
  {
    if uids != [] {
      assert LikedBy(ToggleLike(m, uids[0])) == Toggle(LikedBy(m), uids[0]);
      ApplyLikesLikers(ToggleLike(m, uids[0]), uids[1..]);
    }
  }

  /**
   * After a sequence of toggles a user has liked the message exactly when the
   * parity of the user's toggles flipped the original state an even number of times.
   */
  lemma ApplyLikesParity(m: Message, uids: seq<Uid>, v: Uid)
    ensures v in LikedBy(ApplyLikes(m, uids)) <==> (v in LikedBy(m) <==> multiset(uids)[v] % 2 == 0)
  {
    ApplyLikesLikers(m, uids);
    ToggleAllParity(LikedBy(m), uids, v);
  }

  /**
   * The message object the store passes to the like transaction body. The
   * fields the body does not touch are kept as they are.
   */
  class MessageRecord {
    var roomId: RoomId
    var createdAt: int
    var content: string
    var file: Option<FileRef>
    var likeCount: int
    var likes: PresenceMap?

    /** A fresh object holding the value `m`. */
    constructor FromValue(m: Message)
      ensures Value() == m
      ensures likes != null ==> fresh(likes)
    {
      roomId, createdAt, content, file := m.roomId, m.createdAt, m.content, m.file;
      likeCount := m.likeCount;
      if m.likes.Some? {
        likes := new PresenceMap.Of(m.likes.value);
      } else {
        likes := null;
      }
    }

    /** The value the object holds. */
    function Value(): (m: Message)
      reads this, likes
      ensures m.likes.Some? <==> likes != null
    {
      Message(roomId, createdAt, content, likeCount, ValueOf(likes), file)
    }
  }

  /** The value of a possibly-null message object. */
  function MessageValueOf(msg: MessageRecord?): (r: Option<Message>)
    reads msg, if msg == null then null else msg.likes
    ensures r.None? <==> msg == null
  {
    if msg == null then None else Some(msg.Value())
  }

  /**
   * The like transaction body, in place: `likeCount -= 1` and
   * `likes[uid] = null`, or `likeCount += 1`, `likes = {}` when missing and
   * `likes[uid] = true`, on the object passed in, which is returned.
   */
  method LikeTransactionBody(msg: MessageRecord?, uid: Uid) returns (result: MessageRecord?, alert: Option<LikeAlert>)
    modifies msg, if msg == null then null else msg.likes
    ensures result == msg
    ensures LikeOutcome(MessageValueOf(msg), alert) == LikeUpdate(old(MessageValueOf(msg)), uid)
    ensures msg != null && old(msg.likes) == null ==> fresh(msg.likes)
    ensures msg != null && old(msg.likes) != null ==> msg.likes == old(msg.likes)
  {
    alert := None;
    if msg != null {
      if msg.likes != null && uid in msg.likes.keys {
        msg.likeCount := msg.likeCount - 1;
        msg.likes.Delete(uid);
        alert := Some(LikeRemoved);
      } else {
        msg.likeCount := msg.likeCount + 1;
        if msg.likes == null {
          msg.likes := new PresenceMap.Empty();
        }
        msg.likes.Put(uid);
        alert := Some(LikeAdded);
      }
    }
    result := msg;
  }
}
