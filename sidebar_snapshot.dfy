/**
 * The chat sidebar's reaction to a new result of its chats query
 * (src/components/layout/AppSidebar.tsx): collect the distinct chat partners,
 * look up their profiles, build one entry per chat and sort the entries
 * newest first; and the two pieces of component state this drives.
 *
 * The query subscription and the profile reads are I/O: a query result is
 * given as the sequence of chat documents, and the `users` collection as a
 * map from user id to the profiles whose documents exist.
 */
module SidebarSnapshot {
  import opened Wrappers
  import opened ChatTypes
  import opened Sidebar

  predicate NoDuplicates<T(==)>(s: seq<T>) {
    forall i, j :: 0 <= i < j < |s| ==> s[i] != s[j]
  }

  // ---------------------------------------------------------------------------
  // Chat partners

  /** The partner id of every one-to-one chat, in snapshot order, repeats kept. */
  function PartnerSeq(uid: string, chats: seq<Chat>): (s: seq<string>)
    ensures forall x :: x in s <==> exists c :: c in chats && PartnerOf(uid, c) == Some(x)
  {
    if chats == [] then []
    else
      var init := chats[..|chats| - 1];
      assert chats == init + [chats[|chats| - 1]];
      match PartnerOf(uid, chats[|chats| - 1])
      case Some(other) => PartnerSeq(uid, init) + [other]
      case None => PartnerSeq(uid, init)
  }

  /** `s` with every repeat of an earlier element dropped. */
  function Dedup(s: seq<string>): (d: seq<string>)
    ensures NoDuplicates(d)
    ensures forall x :: x in d <==> x in s
  {
    if s == [] then []
    else
      var init := s[..|s| - 1];
      assert s == init + [s[|s| - 1]];
      var d := Dedup(init);
      if s[|s| - 1] in d then d else d + [s[|s| - 1]]
  }

  /**
   * Dedup keeps first-seen order: whenever `Dedup(s)[j]` occurs in `s`, every
   * earlier element `Dedup(s)[i]` has already occurred before it.
   */
  lemma {:induction false} DedupFirstSeenOrder(s: seq<string>, i: nat, j: nat, p: nat)
    requires i < j < |Dedup(s)| && p < |s| && s[p] == Dedup(s)[j]
    ensures Dedup(s)[i] in s[..p]
  {
    var init := s[..|s| - 1];
    var last := s[|s| - 1];
    var d := Dedup(init);
    assert s == init + [last];
    if last in d {
      assert Dedup(s) == d;
      if p < |init| {
        DedupFirstSeenOrder(init, i, j, p);
        assert init[..p] == s[..p];
      } else {
        assert last in init;
        var q :| 0 <= q < |init| && init[q] == last;
        DedupFirstSeenOrder(init, i, j, q);
        assert init[..q] == s[..q];
        assert s[..q] <= s[..p];
      }
    } else {
      assert Dedup(s) == d + [last];
      if j < |d| {
        assert p < |init| by {
          assert Dedup(s)[j] == d[j] && d[j] in d;
        }
        DedupFirstSeenOrder(init, i, j, p);
        assert init[..p] == s[..p];
      } else {
        assert Dedup(s)[i] == d[i] && d[i] in init;
        assert last !in init;
        assert p == |init|;
        assert s[..p] == init;
      }
    }
  }

  /** The spec of the partner-collecting loop: distinct partners in first-seen order. */
  function PartnerIds(uid: string, chats: seq<Chat>): seq<string> {
    Dedup(PartnerSeq(uid, chats))
  }

  /** The partner list never names the current user, and names only partners of one-to-one chats. */
  lemma PartnerIdsMembership(uid: string, chats: seq<Chat>, x: string)
    ensures x in PartnerIds(uid, chats) <==> exists c :: c in chats && !c.isGroup && PartnerOf(uid, c) == Some(x)
    ensures uid !in PartnerIds(uid, chats) && "" !in PartnerIds(uid, chats)
  {
  }

  /** Collect the distinct partner ids of the one-to-one chats (`otherParticipantIds`). */
  method CollectPartnerIds(uid: string, chats: seq<Chat>) returns (ids: seq<string>)
    ensures ids == PartnerIds(uid, chats)
    ensures NoDuplicates(ids) && uid !in ids
    ensures forall x :: x in ids <==> exists c :: c in chats && PartnerOf(uid, c) == Some(x)
  {
    ids := [];
    for i := 0 to |chats|
      invariant ids == Dedup(PartnerSeq(uid, chats[..i]))
    {
      var chat := chats[i];
      assert chats[..i + 1] == chats[..i] + [chat];
      if !chat.isGroup {
        var otherId := FindOther(chat.participants, uid);
        if otherId.Some? && otherId.value != "" && otherId.value !in ids {
          ids := ids + [otherId.value];
        }
      }
    }
    assert chats[..|chats|] == chats;
  }

  /**
   * Look up the profiles of the collected partners (`usersDataMap`): a partner
   * whose user document does not exist is left out.
   */
  method FetchProfiles(ids: seq<string>, store: map<string, UserProfile>) returns (users: map<string, UserProfile>)
    ensures forall id :: id in users <==> id in ids && id in store
    ensures forall id :: id in users ==> users[id] == store[id]
  {
    users := map[];
    for i := 0 to |ids|
      invariant forall id :: id in users <==> id in ids[..i] && id in store
      invariant forall id :: id in users ==> users[id] == store[id]
    {
      assert ids[..i + 1] == ids[..i] + [ids[i]];
      if ids[i] in store {
        users := users[ids[i] := store[ids[i]]];
      }
    }
    assert ids[..|ids|] == ids;
  }

  // ---------------------------------------------------------------------------
  // Entries

  /** One entry per chat, in snapshot order. */
  function ItemsFor(uid: string, pathname: string, chats: seq<Chat>, users: map<string, UserProfile>): (items: seq<SidebarItem>)
    ensures |items| == |chats|
  {
    seq(|chats|, i requires 0 <= i < |chats| => ItemFor(uid, pathname, chats[i], users))
  }

  function ChatIds(chats: seq<Chat>): seq<string> {
    seq(|chats|, i requires 0 <= i < |chats| => chats[i].id)
  }

  function ItemIds(items: seq<SidebarItem>): seq<string> {
    seq(|items|, i requires 0 <= i < |items| => items[i].id)
  }

  predicate AtMostOneActive(items: seq<SidebarItem>) {
    forall i, j :: 0 <= i < j < |items| ==> !(items[i].isActive && items[j].isActive)
  }

  /** Build the entries in snapshot order (`fetchedChats`). */
  method BuildItems(uid: string, pathname: string, chats: seq<Chat>, users: map<string, UserProfile>)
    returns (items: seq<SidebarItem>)
    ensures items == ItemsFor(uid, pathname, chats, users)
    ensures ItemIds(items) == ChatIds(chats)
  {
    items := [];
    for i := 0 to |chats|
      invariant items == ItemsFor(uid, pathname, chats[..i], users)
    {
      var chat := chats[i];
      var display := ChatDisplay(uid, chat, users);
      var lastMessageText := Preview(chat.lastMessage);
      items := items + [SidebarItem(chat.id, display.name, display.avatar, lastMessageText, ItemTimestamp(chat),
                                    pathname == ChatPath(chat.id), display.aiHint)];
    }
    assert chats[..|chats|] == chats;
  }

  /**
   * Looking up only the collected partners loses nothing: the entries are the
   * same as with every profile at hand.
   */
  lemma FetchedProfilesSuffice(uid: string, pathname: string, chats: seq<Chat>,
                               users: map<string, UserProfile>, store: map<string, UserProfile>)
    requires forall id :: id in users <==> id in store && exists c :: c in chats && PartnerOf(uid, c) == Some(id)
    requires forall id :: id in users ==> id in store && users[id] == store[id]
    ensures ItemsFor(uid, pathname, chats, users) == ItemsFor(uid, pathname, chats, store)
  {
    forall i | 0 <= i < |chats|
      ensures ItemFor(uid, pathname, chats[i], users) == ItemFor(uid, pathname, chats[i], store)
    {
      var c := chats[i];
      assert c in chats;
      match PartnerOf(uid, c)
      case Some(other) =>
        assert other in users <==> other in store;
      case None =>
    }
  }

  /** Distinct chat documents give entries with distinct ids, at most one of them highlighted. */
  lemma {:induction false} DistinctChatsOneActive(items: seq<SidebarItem>, pathname: string)
    requires NoDuplicates(ItemIds(items))
    requires forall item <- items :: item.isActive <==> pathname == ChatPath(item.id)
    ensures AtMostOneActive(items)
  {
    forall i, j | 0 <= i < j < |items| && items[i].isActive && items[j].isActive
      ensures false
    {
      assert items[i] in items && items[j] in items;
      assert ItemIds(items)[i] == items[i].id && ItemIds(items)[j] == items[j].id;
      ChatPathInjective(items[i].id, items[j].id);
    }
  }

  // ---------------------------------------------------------------------------
  // Sorting

  /** Non-increasing in timestamp seconds, a missing timestamp counting as 0. */
  predicate NewestFirst(items: seq<SidebarItem>) {
    forall i, j :: 0 <= i < j < |items| ==> SortKey(items[i]) >= SortKey(items[j])
  }

  /** Swap the entries at `j - 1` and `j`. */
  method SwapWithPrevious(a: array<SidebarItem>, j: int)
    requires 0 < j < a.Length
    modifies a
    ensures a[j - 1] == old(a[j]) && a[j] == old(a[j - 1])
    ensures forall m :: 0 <= m < a.Length && m != j - 1 && m != j ==> a[m] == old(a[m])
    ensures multiset(a[..]) == multiset(old(a[..]))
  {
    a[j - 1], a[j] := a[j], a[j - 1];
  }

  /**
   * Move `a[i]` left past every older entry, so that `a[..i + 1]` is newest
   * first when `a[..i]` was.
   */
  method InsertNewestFirst(a: array<SidebarItem>, i: int)
    requires 0 <= i < a.Length
    requires forall p, q :: 0 <= p < q < i ==> SortKey(a[p]) >= SortKey(a[q])
    modifies a
    ensures forall p, q :: 0 <= p < q <= i ==> SortKey(a[p]) >= SortKey(a[q])
    ensures forall m :: i < m < a.Length ==> a[m] == old(a[m])
    ensures multiset(a[..]) == multiset(old(a[..]))
  {
    var j := i;
    while 0 < j && SortKey(a[j - 1]) < SortKey(a[j])
      invariant 0 <= j <= i
      invariant forall p, q :: 0 <= p < q <= i && p != j && q != j ==> SortKey(a[p]) >= SortKey(a[q])
      invariant forall q :: j < q <= i ==> SortKey(a[j]) > SortKey(a[q])
      invariant forall m :: i < m < a.Length ==> a[m] == old(a[m])
      invariant multiset(a[..]) == multiset(old(a[..]))
    {
      SwapWithPrevious(a, j);
      j := j - 1;
    }
  }

  /** `fetchedChats.sort((a, b) => timeB - timeA)`, as an insertion sort. */
  method SortNewestFirst(a: array<SidebarItem>)
    modifies a
    ensures NewestFirst(a[..])
    ensures multiset(a[..]) == multiset(old(a[..]))
  {
    for i := 0 to a.Length
      invariant forall p, q :: 0 <= p < q < i ==> SortKey(a[p]) >= SortKey(a[q])
      invariant multiset(a[..]) == multiset(old(a[..]))
    {
      InsertNewestFirst(a, i);
    }
  }

  /** Counting occurrences: a sequence has no repeats exactly when nothing occurs twice. */
  lemma {:induction false} NoDuplicatesByCount<T>(s: seq<T>)
    ensures NoDuplicates(s) <==> forall x :: multiset(s)[x] <= 1
  {
    if s != [] {
      var t := s[1..];
      assert s == [s[0]] + t;
      NoDuplicatesByCount(t);
      if NoDuplicates(s) {
        forall k | 0 <= k < |t| ensures t[k] != s[0] {
          assert t[k] == s[k + 1];
        }
      }
      if forall x :: multiset(s)[x] <= 1 {
        assert multiset(s)[s[0]] == multiset(t)[s[0]] + 1;
        assert forall x :: multiset(t)[x] <= multiset(s)[x];
        forall i, j | 0 <= i < j < |s| ensures s[i] != s[j] {
          if i == 0 {
            assert s[j] in t;
          } else {
            assert s[i] == t[i - 1] && s[j] == t[j - 1];
          }
        }
      }
    }
  }

  /** Reordering entries whose ids are distinct keeps them distinct. */
  lemma PermutationKeepsDistinctIds(a: seq<SidebarItem>, b: seq<SidebarItem>)
    requires multiset(a) == multiset(b)
    requires NoDuplicates(ItemIds(b))
    ensures NoDuplicates(ItemIds(a))
  {
    assert NoDuplicates(b) by {
      forall i, j | 0 <= i < j < |b| ensures b[i] != b[j] {
        assert ItemIds(b)[i] != ItemIds(b)[j];
      }
    }
    NoDuplicatesByCount(a);
    NoDuplicatesByCount(b);
    forall i, j | 0 <= i < j < |a| ensures a[i].id != a[j].id {
      assert a[i] in multiset(b) && a[j] in multiset(b);
      var p :| 0 <= p < |b| && b[p] == a[i];
      var q :| 0 <= q < |b| && b[q] == a[j];
      assert ItemIds(b)[p] == a[i].id && ItemIds(b)[q] == a[j].id;
    }
  }

  // ---------------------------------------------------------------------------
  // The snapshot callback

  /**
   * The sidebar list for one query result: one entry per chat, the same
   * entries as if every profile were at hand, newest first.
   */
  method ChatListFromSnapshot(uid: string, pathname: string, chats: seq<Chat>, store: map<string, UserProfile>)
    returns (items: seq<SidebarItem>)
    ensures |items| == |chats|
    ensures multiset(items) == multiset(ItemsFor(uid, pathname, chats, store))
    ensures NewestFirst(items)
    ensures forall item <- items :: 0 < |item.lastMessageText| <= PreviewLimit
    ensures forall item <- items :: item.isActive <==> pathname == ChatPath(item.id)
    ensures NoDuplicates(ChatIds(chats)) ==> NoDuplicates(ItemIds(items)) && AtMostOneActive(items)
  {
    var ids := CollectPartnerIds(uid, chats);
    var users := FetchProfiles(ids, store);
    var built := BuildItems(uid, pathname, chats, users);
    FetchedProfilesSuffice(uid, pathname, chats, users, store);
    var a := new SidebarItem[|built|](k requires 0 <= k < |built| => built[k]);
    assert a[..] == built;
    SortNewestFirst(a);
    items := a[..];
    ReorderedItems(uid, pathname, chats, store, items);
  }

  /** Any reordering of the entries keeps their preview bound, their active flags and, for distinct chats, their distinct ids. */
  lemma ReorderedItems(uid: string, pathname: string, chats: seq<Chat>, store: map<string, UserProfile>,
                       items: seq<SidebarItem>)
    requires multiset(items) == multiset(ItemsFor(uid, pathname, chats, store))
    ensures forall item <- items :: 0 < |item.lastMessageText| <= PreviewLimit
    ensures forall item <- items :: item.isActive <==> pathname == ChatPath(item.id)
    ensures NoDuplicates(ChatIds(chats)) ==> NoDuplicates(ItemIds(items)) && AtMostOneActive(items)
  {
    var built := ItemsFor(uid, pathname, chats, store);
    forall item | item in items ensures item in built {
      assert item in multiset(items);
    }
    if NoDuplicates(ChatIds(chats)) {
      assert ItemIds(built) == ChatIds(chats);
      PermutationKeepsDistinctIds(items, built);
      DistinctChatsOneActive(items, pathname);
    }
  }

  // ---------------------------------------------------------------------------
  // Component state

  /** The sidebar's `sidebarChats` and `loadingChats` state. */
  class SidebarView {
    var sidebarChats: seq<SidebarItem>
    var loadingChats: bool

    constructor ()
      ensures sidebarChats == [] && loadingChats
    {
      sidebarChats := [];
      loadingChats := true;
    }

    /**
     * The effect run when the signed-in user or the page path changes: without
     * a user the list is cleared; with one, loading starts again on every run.
     */
    method OnUserChanged(currentUser: Option<string>)
      modifies this
      ensures currentUser.None? ==> sidebarChats == [] && !loadingChats
      ensures currentUser.Some? ==> sidebarChats == old(sidebarChats) && loadingChats
    {
      if currentUser.None? {
        loadingChats := false;
        sidebarChats := [];
      } else {
        loadingChats := true;
      }
    }

    /** A new query result replaces the list and ends loading. */
    method OnSnapshot(uid: string, pathname: string, chats: seq<Chat>, store: map<string, UserProfile>)
      modifies this
      ensures !loadingChats
      ensures |sidebarChats| == |chats| && NewestFirst(sidebarChats)
      ensures multiset(sidebarChats) == multiset(ItemsFor(uid, pathname, chats, store))
    {
      var items := ChatListFromSnapshot(uid, pathname, chats, store);
      sidebarChats := items;
      loadingChats := false;
    }

    /** A failed query ends loading and keeps the list. */
    method OnSnapshotError()
      modifies this
      ensures !loadingChats && sidebarChats == old(sidebarChats)
    {
      loadingChats := false;
    }
  }
}
