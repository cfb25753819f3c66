/**
 * The per-chat rules of the chat sidebar (src/components/layout/AppSidebar.tsx):
 * which navigation link is highlighted, and how one chat document becomes one
 * sidebar entry (partner, display name and avatar, preview text, timestamp,
 * active flag).
 */
module Sidebar {
  import opened Wrappers
  import opened ChatTypes

  const ChatsHref: string := "/chat"
  const ChatPathPrefix: string := "/chat/"

  /** Longest preview shown, and the length kept before the ellipsis. */
  const PreviewLimit: nat := 30
  const PreviewKeep: nat := 27
  const Ellipsis: string := "..."
  const NoMessagesText: string := "No messages yet"

  predicate StartsWith(s: string, prefix: string) {
    |prefix| <= |s| && s[..|prefix|] == prefix
  }

  /** The path of the chat page for the chat with document id `id`. */
  function ChatPath(id: string): string {
    ChatPathPrefix + id
  }

  /** Whether the navigation link to `href` is highlighted on page `pathname`. */
  function NavLinkActive(pathname: string, href: string): (active: bool)
    ensures href != ChatsHref ==> (active <==> pathname == href)
  {
    pathname == href || (href == ChatsHref && StartsWith(pathname, ChatPathPrefix))
  }

  /** The "Chats" link is highlighted on "/chat" itself and on every chat page, and nowhere else. */
  lemma {:induction false} ChatsLinkActiveIff(pathname: string)
    ensures NavLinkActive(pathname, ChatsHref) <==> pathname == ChatsHref || exists id :: pathname == ChatPath(id)
  {
    if StartsWith(pathname, ChatPathPrefix) {
      var id := pathname[|ChatPathPrefix|..];
      assert pathname == ChatPath(id);
    }
    if id :| pathname == ChatPath(id) {
      assert pathname[..|ChatPathPrefix|] == ChatPathPrefix;
    }
  }

  /**
   * `participants.find(p => p !== uid)`: the first participant who is not the
   * current user, if there is one.
   */
  function FindOther(participants: seq<string>, uid: string): (r: Option<string>)
    ensures r.None? <==> forall i :: 0 <= i < |participants| ==> participants[i] == uid
    ensures r.Some? ==> r.value != uid &&
                        (exists k :: 0 <= k < |participants| && participants[k] == r.value &&
                                     forall j :: 0 <= j < k ==> participants[j] == uid)
  {
    if participants == [] then None
    else if participants[0] != uid then
      assert participants[0] in participants;
      Some(participants[0])
    else
      var r := FindOther(participants[1..], uid);
      assert forall i :: 1 <= i < |participants| ==> participants[i] == participants[1..][i - 1];
      assert r.Some? ==> (exists k :: 0 < k < |participants| && participants[k] == r.value &&
                                      forall j :: 0 <= j < k ==> participants[j] == uid) by {
        if r.Some? {
          var k :| 0 <= k < |participants[1..]| && participants[1..][k] == r.value &&
                   forall j :: 0 <= j < k ==> participants[1..][j] == uid;
          assert forall j :: 1 <= j < k + 1 ==> participants[j] == participants[1..][j - 1];
        }
      }
      r
  }

  /**
   * The other participant of a one-to-one chat, as the sidebar uses it: group
   * chats have none, and an empty id is falsy and counts as none.
   */
  function PartnerOf(uid: string, chat: Chat): (r: Option<string>)
    ensures r.Some? ==> !chat.isGroup && r.value != uid && r.value != "" && r.value in chat.participants
    ensures r.None? && !chat.isGroup ==> FindOther(chat.participants, uid) in {None, Some("")}
    ensures r.Some? ==> Some(r.value) == FindOther(chat.participants, uid)
  {
    if chat.isGroup then None
    else
      match FindOther(chat.participants, uid)
      case Some(other) => if other != "" then Some(other) else None
      case None => None
  }

  /** What the sidebar shows for a chat: name, avatar image and avatar hint. */
  datatype Display = Display(name: string, avatar: Option<string>, aiHint: string)

  /**
   * The display fallbacks. `users` holds the fetched profiles of chat
   * partners, keyed by user id.
   */
  function ChatDisplay(uid: string, chat: Chat, users: map<string, UserProfile>): (d: Display)
    ensures d.name != "" && d.aiHint != ""
    ensures d.avatar.Some? ==> d.avatar.value != ""
    ensures chat.isGroup ==>
              d == Display(OrElse(chat.groupName, "Group Chat"), OrNull(chat.groupAvatar), "group avatar")
    ensures PartnerOf(uid, chat).Some? && PartnerOf(uid, chat).value in users ==>
              var profile := users[PartnerOf(uid, chat).value];
              d == Display(OrElse(profile.displayName, "User"), OrNull(profile.photoURL),
                           OrElse(profile.dataAiHint, "person avatar"))
    ensures PartnerOf(uid, chat).Some? && PartnerOf(uid, chat).value !in users ==>
              d == Display("Loading User...", None, "person avatar")
    ensures !chat.isGroup && PartnerOf(uid, chat).None? ==> d == Display("Chat", None, "person avatar")
  {
    if chat.isGroup then
      Display(OrElse(chat.groupName, "Group Chat"), OrNull(chat.groupAvatar), "group avatar")
    else
      match PartnerOf(uid, chat)
      case Some(other) =>
        if other in users then
          var profile := users[other];
          Display(OrElse(profile.displayName, "User"), OrNull(profile.photoURL),
                  OrElse(profile.dataAiHint, "person avatar"))
        else
          Display("Loading User...", None, "person avatar")
      case None => Display("Chat", None, "person avatar")
  }

  /** The preview line: the newest message's text, shortened to at most 30 characters. */
  function Preview(lastMessage: Option<LastMessage>): (p: string)
    ensures 0 < |p| <= PreviewLimit
    ensures lastMessage.None? || lastMessage.value.text == "" ==> p == NoMessagesText
    ensures lastMessage.Some? && 0 < |lastMessage.value.text| <= PreviewLimit ==> p == lastMessage.value.text
    ensures lastMessage.Some? && |lastMessage.value.text| > PreviewLimit ==>
              |p| == PreviewLimit && p[..PreviewKeep] == lastMessage.value.text[..PreviewKeep] &&
              p[PreviewKeep..] == Ellipsis
  {
    var text := if lastMessage.Some? && lastMessage.value.text != "" then lastMessage.value.text else NoMessagesText;
    if |text| > PreviewLimit then text[..PreviewKeep] + Ellipsis else text
  }

  /** Shortening is idempotent: previewing a preview changes nothing. */
  lemma PreviewIdempotent(lastMessage: Option<LastMessage>, timestamp: Option<Timestamp>, senderId: string)
    ensures Preview(Some(LastMessage(Preview(lastMessage), timestamp, senderId))) == Preview(lastMessage)
  {
  }

  /** `lastMessage?.timestamp || updatedAt` */
  function ItemTimestamp(chat: Chat): (t: Option<Timestamp>)
    ensures chat.lastMessage.Some? && chat.lastMessage.value.timestamp.Some? ==> t == chat.lastMessage.value.timestamp
    ensures chat.lastMessage.None? || chat.lastMessage.value.timestamp.None? ==> t == chat.updatedAt
  {
    if chat.lastMessage.Some? && chat.lastMessage.value.timestamp.Some? then chat.lastMessage.value.timestamp
    else chat.updatedAt
  }

  /** One entry of the sidebar's chat list. */
  datatype SidebarItem = SidebarItem(
    id: string,
    displayName: string,
    displayAvatar: Option<string>,
    lastMessageText: string,
    lastMessageTimestamp: Option<Timestamp>,
    isActive: bool,
    dataAiHint: string)

  /** The entry built for one chat document on page `pathname`. */
  function ItemFor(uid: string, pathname: string, chat: Chat, users: map<string, UserProfile>): (item: SidebarItem)
    ensures item.id == chat.id
    ensures item.isActive <==> pathname == ChatPath(chat.id)
    ensures 0 < |item.lastMessageText| <= PreviewLimit
    ensures item.displayName != ""
    ensures var d := ChatDisplay(uid, chat, users);
            item.displayName == d.name && item.displayAvatar == d.avatar && item.dataAiHint == d.aiHint
    ensures item.lastMessageText == Preview(chat.lastMessage)
    ensures item.lastMessageTimestamp == ItemTimestamp(chat)
  {
    var d := ChatDisplay(uid, chat, users);
    SidebarItem(chat.id, d.name, d.avatar, Preview(chat.lastMessage), ItemTimestamp(chat),
                pathname == ChatPath(chat.id), d.aiHint)
  }

  /** When a chat entry is highlighted, so is the "Chats" navigation link. */
  lemma ActiveItemHighlightsChatsLink(uid: string, pathname: string, chat: Chat, users: map<string, UserProfile>)
    requires ItemFor(uid, pathname, chat, users).isActive
    ensures NavLinkActive(pathname, ChatsHref)
  {
    assert pathname[..|ChatPathPrefix|] == ChatPathPrefix;
  }

  /** Two chat paths are equal only for equal chat ids. */
  lemma ChatPathInjective(a: string, b: string)
    requires ChatPath(a) == ChatPath(b)
    ensures a == b
  {
    assert a == ChatPath(a)[|ChatPathPrefix|..];
    assert b == ChatPath(b)[|ChatPathPrefix|..];
  }

  /** The sort key: `lastMessageTimestamp?.seconds || 0`. */
  function SortKey(item: SidebarItem): int {
    match item.lastMessageTimestamp
    case Some(t) => t.seconds
    case None => 0
  }
}
