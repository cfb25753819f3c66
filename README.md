# Chat hub sidebar, avatar and sign-in rules in Dafny

This project models three self-contained pieces of logic from the Gongo-Bongo chat hub web client.

- **The chat sidebar** (`src/components/layout/AppSidebar.tsx`).
  - A navigation link is highlighted on its own page. The "Chats" link is also highlighted on every chat page.
  - When a new result of the user's chats query arrives, the sidebar does five things:
    - it collects the distinct partners of the one-to-one chats;
    - it reads their profiles;
    - it builds one entry per chat, with a display name and avatar, a preview line, a timestamp and an active flag;
    - it sorts the entries newest first;
    - it stores them in component state, once every profile read has succeeded.
- **The avatar fallback** (`src/components/common/CustomAvatar.tsx`).
  - When there is no image, the avatar shows the caller's fallback when that is truthy.
  - Otherwise it shows the initials of the alt text, which defaults to "User Avatar". The initials are the first letters of the first and last space-separated words.
- **The login and sign-up form rules** (`src/components/auth/AuthForm.tsx`).
  - Each schema is a function from the form's fields to the list of (field, message) issues it reports.
  - Once a submit reaches the schema, the resolver reports under each field the message of the first issue on that field.

The modules are laid out as follows:

- `wrappers.dfy`: `Option`.
- `chat_types.dfy`: the chat and profile records of `src/lib/types.ts`, and JavaScript truthiness of optional strings.
- `sidebar.dfy`: the per-chat rules, as pure functions.
- `sidebar_snapshot.dfy`: the snapshot callback.
  - It is written as imperative methods with loops: the partner loop, the profile lookup, the entry loop and an in-place insertion sort on an array.
  - Each method is proved against specification functions.
  - The component's two state variables form the class `SidebarView`.
- `avatar.dfy`: `getInitials` and the fallback selection.
- `auth_schemas.dfy`: the two validation schemas and the message shown per field.

The model makes these choices about the source:

- **Truthiness.** An optional string counts as present only when it is non-empty, as in JavaScript. So a chat whose other participant has the id `""` gets no partner, both when partners are collected and when the display name is chosen.
- **Sign-up rules.** Every field check of the sign-up schema runs, and so does its "passwords match" refinement, even when a field check has failed. This follows the validation library: failed string checks do not abort the object.
- **Issue order.** Issues are listed in the schema's field order, and the refinement comes last.

## Model

| member | source | states |
|---|---|---|
| Sidebar.NavLinkActive | src/components/layout/AppSidebar.tsx:36 | a link other than "/chat" is highlighted exactly when the path equals its href |
| Sidebar.ChatsLinkActiveIff | src/components/layout/AppSidebar.tsx:36 | the "/chat" link is highlighted exactly on "/chat" and on "/chat/" followed by any chat id |
| Sidebar.FindOther | src/components/layout/AppSidebar.tsx:82 | `find(p => p !== uid)`: none exactly when every participant is the user; otherwise the first participant who is not the user |
| Sidebar.PartnerOf | src/components/layout/AppSidebar.tsx:81-83 | a partner exists only for a one-to-one chat and is `find`'s result, the first participant other than the user, when that is non-empty; a one-to-one chat has none only when `find` gives nothing or `""` |
| Sidebar.ChatDisplay | src/components/layout/AppSidebar.tsx:105-125 | a group gets groupName or "Group Chat", groupAvatar or null and "group avatar"; a fetched partner gets displayName or "User", photoURL or null, dataAiHint or "person avatar"; an unfetched partner gets "Loading User..."; no partner gets "Chat"; the name and hint are never empty |
| Sidebar.Preview | src/components/layout/AppSidebar.tsx:127-130 | missing or empty text gives "No messages yet"; text of at most 30 characters is kept; longer text gives its first 27 characters followed by "..."; a preview is 1 to 30 characters long |
| Sidebar.PreviewIdempotent | src/components/layout/AppSidebar.tsx:127-130 | shortening a preview again changes nothing |
| Sidebar.ItemTimestamp | src/components/layout/AppSidebar.tsx:137 | the last message's timestamp when it has one, otherwise updatedAt |
| Sidebar.ItemFor | src/components/layout/AppSidebar.tsx:132-140 | the entry carries the chat id; its name, avatar and hint are the chat's display fallbacks, its preview text is the shortened last message and its timestamp the last message's, else updatedAt; it is active exactly when the path is "/chat/" + id; its preview has 1 to 30 characters and its name is non-empty |
| Sidebar.ActiveItemHighlightsChatsLink | src/components/layout/AppSidebar.tsx:36 | whenever a chat entry is active, the "Chats" link is highlighted too |
| Sidebar.ChatPathInjective | src/components/layout/AppSidebar.tsx:138 | different chat ids give different chat paths |
| SidebarSnapshot.PartnerSeq | src/components/layout/AppSidebar.tsx:79-87 | its elements are exactly the partners of the chats |
| SidebarSnapshot.Dedup | src/components/layout/AppSidebar.tsx:83-84 | the `includes` guard: no repeats, same elements |
| SidebarSnapshot.DedupFirstSeenOrder | src/components/layout/AppSidebar.tsx:83-84 | distinct partners keep first-seen order |
| SidebarSnapshot.PartnerIdsMembership | src/components/layout/AppSidebar.tsx:79-87 | a listed partner comes from a non-group chat, and the list never holds the user's own id or `""` |
| SidebarSnapshot.CollectPartnerIds | src/components/layout/AppSidebar.tsx:79-87 | the loop yields the distinct partners in first-seen order: no duplicates, not the user, exactly the partners of the one-to-one chats |
| SidebarSnapshot.FetchProfiles | src/components/layout/AppSidebar.tsx:89-99 | the fetched map holds exactly the collected partners whose user document exists, with that document |
| SidebarSnapshot.ItemsFor | src/components/layout/AppSidebar.tsx:101-141 | one entry per chat |
| SidebarSnapshot.BuildItems | src/components/layout/AppSidebar.tsx:101-141 | the loop builds the entries of the chats in snapshot order, and their ids are the chat ids |
| SidebarSnapshot.FetchedProfilesSuffice | src/components/layout/AppSidebar.tsx:89-125 | reading only the partners' profiles gives the same entries as the whole `users` collection |
| SidebarSnapshot.DistinctChatsOneActive | src/components/layout/AppSidebar.tsx:138 | entries with distinct ids have at most one active |
| SidebarSnapshot.SwapWithPrevious | src/components/layout/AppSidebar.tsx:143 | exchanges two neighbouring entries in place and leaves the rest unchanged |
| SidebarSnapshot.InsertNewestFirst | src/components/layout/AppSidebar.tsx:143-147 | inserts one entry into the sorted prefix; the prefix stays sorted and the entries are a permutation |
| SidebarSnapshot.SortNewestFirst | src/components/layout/AppSidebar.tsx:143-147 | after sorting, the entries are a permutation of those before and are non-increasing in timestamp seconds, a missing timestamp counting as 0 |
| SidebarSnapshot.PermutationKeepsDistinctIds | src/components/layout/AppSidebar.tsx:143-147 | sorting keeps the entry ids distinct |
| SidebarSnapshot.ReorderedItems | src/components/layout/AppSidebar.tsx:127-147 | in any reordering of the entries, every preview has 1 to 30 characters, an entry is active exactly on its chat path, and for distinct chats the ids are distinct with at most one entry active |
| SidebarSnapshot.ChatListFromSnapshot | src/components/layout/AppSidebar.tsx:75-147 | the callback's list has one entry per chat, is a permutation of the entries built from the full profile collection, is newest first, and meets the preview, active and distinct-id rules |
| SidebarSnapshot.SidebarView.constructor | src/components/layout/AppSidebar.tsx:55-56 | the state starts as an empty list, loading |
| SidebarSnapshot.SidebarView.OnUserChanged | src/components/layout/AppSidebar.tsx:59-66 | the effect run on every change of user or page path: with no user the list is emptied and loading ends; with a user loading starts again, even on a mere navigation, and the list is kept |
| SidebarSnapshot.SidebarView.OnSnapshot | src/components/layout/AppSidebar.tsx:74-150 | a query result replaces the list with the sorted entries, one per chat, and ends loading |
| SidebarSnapshot.SidebarView.OnSnapshotError | src/components/layout/AppSidebar.tsx:151-154 | a failed query ends loading and keeps the list |
| Avatar.FirstCharUpper | src/components/common/CustomAvatar.tsx:17 | `charAt(0).toUpperCase()`: empty for an empty word, otherwise the word's upper-cased first character |
| Avatar.Split | src/components/common/CustomAvatar.tsx:16 | `split(' ')` gives at least one piece, no piece contains a space, and joining the pieces with spaces gives back the text |
| Avatar.SplitJoin | src/components/common/CustomAvatar.tsx:16 | splitting a space-joined list of space-free words gives back exactly those words |
| Avatar.Initials | src/components/common/CustomAvatar.tsx:14-19 | a missing or empty name gives the icon; otherwise text of at most 2 characters; a name without a space gives its upper-cased first character |
| Avatar.InitialsOfWords | src/components/common/CustomAvatar.tsx:16-18 | two or more words give the upper-cased first letter of the first word followed by that of the last |
| Avatar.SameEndsSameInitials | src/components/common/CustomAvatar.tsx:18 | word lists with the same first and last word give the same initials |
| Avatar.InitialsIgnoreMiddleWords | src/components/common/CustomAvatar.tsx:18 | inserting words between the first and last word does not change the initials |
| Avatar.TrailingSpaceAddsNothing | src/components/common/CustomAvatar.tsx:16-18 | a trailing space leaves an empty last word, so "John " gives the same "J" as "John" |
| Avatar.InitialsOfTwoWords | src/components/common/CustomAvatar.tsx:18 | two non-empty words give the upper-cased first letter of each |
| Avatar.DefaultAltInitials | src/components/common/CustomAvatar.tsx:13 | the default alt text "User Avatar" gives "UA" |
| Avatar.AvatarFallback | src/components/common/CustomAvatar.tsx:13-25 | a fallback node or non-empty fallback text is shown as given; otherwise the initials of the alt text are shown, or "UA" when no alt is given |
| AuthSchemas.LoginErrors | src/components/auth/AuthForm.tsx:21-24 | no issue exactly when the e-mail passes the e-mail check and the password has at least 6 characters; "Invalid email address" on the e-mail exactly when that check fails; "Password must be at least 6 characters" on the password exactly when it is too short; no other issue |
| AuthSchemas.SignupErrors | src/components/auth/AuthForm.tsx:26-34 | no issue exactly when the name has 3 to 30 characters, the e-mail passes, both passwords have at least 6 characters and they are equal; "Passwords don't match" on the confirmation exactly when the passwords differ, and never on another field |
| AuthSchemas.ShownMessage | src/components/auth/AuthForm.tsx:46-51 | the message the resolver reports under a field is that of the first issue on it, and there is none exactly when no issue is on that field |
| AuthSchemas.ShownMessageAppend | src/components/auth/AuthForm.tsx:46-51 | the first issue on a field in two joined issue lists comes from the first list when it has one |
| AuthSchemas.SignupShownByCheck | src/components/auth/AuthForm.tsx:26-34 | the message under a field is that of the first of the schema's checks on it that fails |
| AuthSchemas.DisplayNameMessage | src/components/auth/AuthForm.tsx:27 | under the display name: "at least 3 characters" when shorter than 3, "at most 30 characters" when longer than 30, otherwise nothing |
| AuthSchemas.SignupEmailMessage | src/components/auth/AuthForm.tsx:28 | under the e-mail: "Invalid email address" exactly when the e-mail check fails |
| AuthSchemas.SignupPasswordMessage | src/components/auth/AuthForm.tsx:29 | under the password: the length message exactly when it is shorter than 6 characters, never the mismatch |
| AuthSchemas.ConfirmPasswordMessage | src/components/auth/AuthForm.tsx:30-34 | under the confirmation: the length message when shorter than 6 characters, otherwise "Passwords don't match" when the passwords differ, otherwise nothing |

## Left out

- Firestore I/O is not modelled: the query subscription (`onSnapshot`), the `getDoc` profile reads and `Promise.all`. A query result is given as a sequence of chat documents, and the `users` collection as a map of the profiles whose documents exist.
- The query's `where`/`orderBy("updatedAt")` clauses are not modelled. The documents arrive in whatever order the input sequence has, and the sidebar's own sort decides the final order.
- The callback runs asynchronously. Unsubscribing, the scroll-into-view effect, and callbacks that overlap are not modelled. They can overlap after a user or path change, and also within one subscription, because each callback awaits its profile reads; a slower, older callback can then store its list after a newer one.
- SidebarSnapshot.SidebarView.OnSnapshot: models a callback whose profile reads all succeed. When a read is rejected (offline without a cache, permission denied), the source's callback stops before storing the list and ending loading, and the query's error callback does not run either, so the list is kept and loading stays on. The model has no transition for that case.
- The sign-in and sign-up submit handlers, the profile-document writes and the toasts in `AuthForm.tsx` are not modelled. They are Firebase calls.
- The auth provider, the header's presence writes, the AI flows and all rendering are not part of this model.
- The chat page, with its request and accept flow and its message pipeline, is not part of this model.
- The e-mail format check of the validation library is a parameter `isEmail`, not a definition.
- The browser's own check on the `type="email"` inputs is not modelled. The forms do not set `noValidate`, so a non-empty e-mail the browser rejects (such as `abc`) blocks the submit before the schema runs. No message from the schema then appears under any field. The schema messages are those the resolver reports once a submit gets through.
- Strings are sequences of characters. Lengths, `charAt` and `substring` count UTF-16 code units in the source and characters here; the two agree for text without surrogate pairs.
- Avatar.Initials: upper-casing is modelled for ASCII letters only. JavaScript's `toUpperCase` also maps other letters, some of them to two characters ("ß" to "SS"), which can make the source's initials longer than 2 characters.
- Avatar.AvatarFallback: a fallback is either a string or a non-null rendered node. A caller passing another falsy value (`0`, `false`, `null`) is modelled as passing no fallback.
- Timestamps are modelled by their whole seconds only. The sort compares seconds, so nanoseconds do not change the order. A server timestamp that is still pending reads as missing.
- SidebarSnapshot.ChatListFromSnapshot: does not state which ordering of entries with equal seconds results. JavaScript's sort is stable, so the source keeps such entries in the query's order (newest `updatedAt` first); the model proves only that the list is newest first and a permutation of the built entries.
- SidebarSnapshot.SortNewestFirst: does not state stability. JavaScript's sort keeps entries with equal seconds in snapshot order; the model proves only order and permutation.
- SidebarSnapshot.SidebarView.OnSnapshot: states the new list as a permutation of the built entries, newest first. It does not name which permutation, for the same reason.
