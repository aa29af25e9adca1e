/**
 * The client-side block list: an ordered list of user ids kept as one JSON
 * value in the browser store under `swarmchat_block_list`, read on every
 * query and rewritten by add and remove.
 */
module BlockList {
  import opened Text

  const StorageKey := "swarmchat_block_list"

  /**
   * What the store holds under the key: nothing, text that is not a JSON
   * list of strings (the empty string included), or an encoded list.
   */
  datatype Stored = Absent | Unparseable(raw: string) | Encoded(ids: seq<string>)

  /** `getBlocked`: the stored list, or `[]` when nothing usable is stored. */
  function GetBlocked(s: Stored): (r: seq<string>)
    ensures s.Encoded? ==> r == s.ids
    ensures !s.Encoded? ==> r == []
  {
    if s.Encoded? then s.ids else []
  }

  /** `isBlocked`: a missing or empty id is never blocked; otherwise list membership. */
  predicate IsBlocked(userId: Option<string>, s: Stored): (r: bool)
    ensures r ==> Truthy(userId) && s.Encoded?
  {
    Truthy(userId) && userId.value in GetBlocked(s)
  }

  /** The list `addBlocked` would store: unchanged for an empty or known id, else the id appended. */
  function Added(list: seq<string>, userId: string): (r: seq<string>)
    ensures userId == "" || userId in list ==> r == list
    ensures userId != "" && userId !in list ==> r == list + [userId]
  {
    if userId == "" || userId in list then list else list + [userId]
  }

  /** `list.filter(x => x !== userId)`: every occurrence removed, the rest kept in order. */
  function Without(list: seq<string>, userId: string): (r: seq<string>)
    ensures userId !in r
    ensures forall y :: y != userId ==> multiset(r)[y] == multiset(list)[y]
    ensures userId !in list ==> r == list
    ensures |r| <= |list|
  {
    if list == [] then []
    else
      assert list == [list[0]] + list[1..];
      if list[0] == userId then Without(list[1..], userId)
      else [list[0]] + Without(list[1..], userId)
  }

  /** Removal keeps relative order: it commutes with concatenation. */
  lemma {:induction false} WithoutAppend(a: seq<string>, b: seq<string>, userId: string)
    ensures Without(a + b, userId) == Without(a, userId) + Without(b, userId)
  {
    if a == [] {
      assert a + b == b;
    } else {
      assert (a + b)[1..] == a[1..] + b;
      WithoutAppend(a[1..], b, userId);
    }
  }

  predicate NoDuplicates(list: seq<string>) {
    forall i, j :: 0 <= i < j < |list| ==> list[i] != list[j]
  }

  /** Adding keeps a duplicate-free list duplicate-free. */
  lemma AddedKeepsNoDuplicates(list: seq<string>, userId: string)
    requires NoDuplicates(list)
    ensures NoDuplicates(Added(list, userId))
  {
  }

  /** Adding twice is adding once. */
  lemma AddedIdempotent(list: seq<string>, userId: string)
    ensures Added(Added(list, userId), userId) == Added(list, userId)
  {
  }

  /** After a stored add of a non-empty id the id is blocked; after a stored removal it is not. */
  lemma AddRemoveMembership(s: Stored, userId: string)
    requires userId != ""
    ensures IsBlocked(Some(userId), Encoded(Added(GetBlocked(s), userId)))
    ensures !IsBlocked(Some(userId), Encoded(Without(GetBlocked(s), userId)))
  {
  }

  /** Removing keeps a duplicate-free list duplicate-free. */
  lemma {:induction false} WithoutKeepsNoDuplicates(list: seq<string>, userId: string)
    requires NoDuplicates(list)
    ensures NoDuplicates(Without(list, userId))
  {
    if list != [] {
      WithoutKeepsNoDuplicates(list[1..], userId);
      var rest := Without(list[1..], userId);
      if list[0] != userId {
        assert multiset(list[1..])[list[0]] == 0;
        assert list[0] !in rest by {
          assert multiset(rest)[list[0]] == multiset(list[1..])[list[0]];
        }
      }
    }
  }

  /** The browser store slot, read and rewritten in place. */
  class BlockStore {
    var stored: Stored

    constructor (initial: Stored)
      ensures stored == initial
    {
      stored := initial;
    }

    function Blocked(): seq<string>
      reads this
    {
      GetBlocked(stored)
    }

    /**
     * `addBlocked`: an empty or already-listed id leaves the store alone;
     * otherwise the current list with the id pushed on its end is written
     * (a failed write is swallowed).
     */
    method AddBlocked(userId: string, writeOk: bool)
      modifies this
      ensures userId == "" || userId in old(Blocked()) ==> stored == old(stored)
      ensures userId != "" && userId !in old(Blocked()) ==>
        stored == if writeOk then Encoded(old(Blocked()) + [userId]) else old(stored)
      ensures writeOk && userId != "" ==> IsBlocked(Some(userId), stored)
    {
      if userId == "" {
        return;
      }
      var list := GetBlocked(stored);
      if userId in list {
        return;
      }
      list := list + [userId];
      if writeOk {
        stored := Encoded(list);
      }
    }

    /**
     * `removeBlocked`: for a non-empty id, the current list without any
     * occurrence of the id is written, member or not.
     */
    method RemoveBlocked(userId: string, writeOk: bool)
      modifies this
      ensures userId == "" ==> stored == old(stored)
      ensures userId != "" ==>
        stored == if writeOk then Encoded(Without(old(Blocked()), userId)) else old(stored)
      ensures userId != "" && userId !in old(Blocked()) ==> Blocked() == old(Blocked())
      ensures writeOk ==> !IsBlocked(Some(userId), stored)
    {
      if userId == "" {
        return;
      }
      var list := Without(GetBlocked(stored), userId);
      if writeOk {
        stored := Encoded(list);
      }
    }
  }
}
