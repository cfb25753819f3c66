/**
 * The record shapes of src/lib/types.ts that the chat sidebar reads, with
 * JavaScript's "truthiness" of optional strings written out.
 */
module ChatTypes {
  import opened Wrappers

  /** A Firestore timestamp; the sidebar only ever reads its whole seconds. */
  datatype Timestamp = Timestamp(seconds: int)

  /** The denormalised summary of a chat's newest message. */
  datatype LastMessage = LastMessage(text: string, timestamp: Option<Timestamp>, senderId: string)

  /**
   * One document of the `chats` collection. `id` is the document id; an
   * absent `isGroup` reads as `false`. A timestamp the server has not yet
   * filled in reads as `None`.
   */
  datatype Chat = Chat(
    id: string,
    participants: seq<string>,
    lastMessage: Option<LastMessage>,
    updatedAt: Option<Timestamp>,
    isGroup: bool,
    groupName: Option<string>,
    groupAvatar: Option<string>)

  /** The fields of a `users` document that the sidebar reads. */
  datatype UserProfile = UserProfile(
    displayName: Option<string>,
    photoURL: Option<string>,
    dataAiHint: Option<string>)

  /** An optional string is truthy in JavaScript when present and non-empty. */
  predicate Truthy(s: Option<string>) {
    s.Some? && s.value != ""
  }

  /** `s || fallback` */
  function OrElse(s: Option<string>, fallback: string): string {
    if Truthy(s) then s.value else fallback
  }

  /** `s || null` */
  function OrNull(s: Option<string>): Option<string> {
    if Truthy(s) then s else None
  }
}
