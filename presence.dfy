/**
 * Presence maps: the store objects that map a user id to `true`, used for a
 * room's `admins` and a message's `likes`. A key that is present means "is an
 * admin" or "has liked"; the store never keeps a key whose value is `null`, so
 * such a map is modelled by its set of keys.
 */
module Presence {
  import opened Wrappers

  type Uid = string

  /** Flips one user's membership; every other user keeps theirs. */
  function Toggle(s: set<Uid>, uid: Uid): (r: set<Uid>)
    ensures uid in r <==> uid !in s
    ensures forall v :: v != uid ==> (v in r <==> v in s)
  {
    if uid in s then s - {uid} else s + {uid}
  }

  /** Toggling the same user twice gives back the original set. */
  lemma ToggleTwice(s: set<Uid>, uid: Uid)
    ensures Toggle(Toggle(s, uid), uid) == s
  {
  }

  /** A toggle changes the number of members by exactly one. */
  lemma ToggleSize(s: set<Uid>, uid: Uid)
    ensures |Toggle(s, uid)| == if uid in s then |s| - 1 else |s| + 1
  {
    if uid in s {
      assert s == (s - {uid}) + {uid};
    }
  }

  /** The effect of a sequence of toggles, applied in order. */
  function ToggleAll(s: set<Uid>, uids: seq<Uid>): set<Uid>
    decreases |uids|
  {
    if uids == [] then s else ToggleAll(Toggle(s, uids[0]), uids[1..])
  }

  /**
   * After a sequence of toggles a user is a member exactly when it was one
   * before and toggled an even number of times, or was not and toggled an odd
   * number of times.
   */
  lemma {:induction false} ToggleAllParity(s: set<Uid>, uids: seq<Uid>, v: Uid)
    ensures v in ToggleAll(s, uids) <==> (v in s <==> multiset(uids)[v] % 2 == 0)
    decreases |uids|
  {
    if uids != [] {
      ToggleAllParity(Toggle(s, uids[0]), uids[1..], v);
      assert uids == [uids[0]] + uids[1..];
      assert multiset(uids) == multiset{uids[0]} + multiset(uids[1..]);
    }
  }

  /** A presence map as the mutable object a transaction body receives. */
  class PresenceMap {
    var keys: set<Uid>

    /** The literal `{}`. */
    constructor Empty()
      ensures keys == {}
    {
      keys := {};
    }

    /** An object holding the given keys. */
    constructor Of(s: set<Uid>)
      ensures keys == s
    {
      keys := s;
    }

    /** `obj[uid] = true` */
    method Put(uid: Uid)
      modifies this
      ensures keys == old(keys) + {uid}
    {
      keys := keys + {uid};
    }

    /** `obj[uid] = null`: the store drops the key when the object is written back. */
    method Delete(uid: Uid)
      modifies this
      ensures keys == old(keys) - {uid}
    {
      keys := keys - {uid};
    }
  }

  /** The value of a possibly-null presence object. */
  function ValueOf(p: PresenceMap?): (r: Option<set<Uid>>)
    reads p
    ensures r.None? <==> p == null
  {
    if p == null then None else Some(p.keys)
  }
}
