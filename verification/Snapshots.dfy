/** A target document as read from or intended for Open WebUI, its conflict hash
    and the comparisons made before and after a write. */
module Snapshots {
  import opened Basics
  import opened Domain
  import opened ChatGraph

  /** The members of a chat response that are compared: `stable` holds the unknown
      ones, `volatile` the clock-driven and computed ones no comparison looks at. */
  datatype Envelope = Envelope(
    id: string, userId: string, archived: bool, pinned: bool, folder: string,
    stable: map<string, Json>, volatile: map<string, Json>)

  /** The conflict hash, as the value it is computed from. */
  datatype ConflictHash =
    | OfResponse(id: string, userId: string, stable: map<string, Json>, chat: Chat, title: string, current: string,
                 archived: bool, pinned: bool, folder: string)
    | OfChat(chat: Chat, userId: string, archived: bool, pinned: bool, folder: string)

  datatype Snapshot = Snapshot(
    chatId: string, ownerId: string, archived: bool, pinned: bool, folder: string, updatedAt: int,
    normalized: TargetSnapshot, chat: Chat, envelope: Option<Envelope>, conflict: ConflictHash)

  function HashRelevant(chat: Chat, normalized: TargetSnapshot, envelope: Option<Envelope>,
                        ownerId: string, archived: bool, pinned: bool, folder: string): ConflictHash
  {
    match envelope
    case Some(e) =>
      OfResponse(e.id, e.userId, e.stable, chat, normalized.title, normalized.current, archived, pinned, folder)
    case None => OfChat(chat, ownerId, archived, pinned, folder)
  }

  /** What every snapshot decoded from a chat response satisfies. */
  ghost predicate Decoded(s: Snapshot) {
    && s.chatId != "" && s.ownerId != ""
    && ValidChat(s.chat) && s.normalized == Normalized(s.chat)
    && s.envelope.Some?
    && s.envelope.value == Envelope(s.chatId, s.ownerId, s.archived, s.pinned, s.folder,
                                    s.envelope.value.stable, s.envelope.value.volatile)
    && s.conflict == HashRelevant(s.chat, s.normalized, s.envelope, s.ownerId, s.archived, s.pinned, s.folder)
  }

  // ----- strict comparison -----

  predicate KnowsCreator(m: Field<Marker>) {
    m.Present? && m.value.createdBy != ""
  }

  function ForgetLastOperation(m: Field<Marker>): Field<Marker> {
    match m
    case Present(v) => Present(v.(lastOperation := ""))
    case _ => m
  }

  /** A document without the parts a receipt may add: the server's id, and either
      the whole marker or, once the creator is known, its last operation. */
  function Comparable(chat: Chat, expected: Chat): Chat {
    chat.(id := Absent,
          marker := if KnowsCreator(expected.marker) then ForgetLastOperation(chat.marker) else Absent)
  }

  predicate SameEnvelope(actual: Option<Envelope>, expected: Envelope) {
    actual.Some? && actual.value.(volatile := expected.volatile) == expected
  }

  predicate MatchSnapshot(actual: Snapshot, expected: Snapshot) {
    && (expected.chatId != "" ==> actual.chatId == expected.chatId)
    && (expected.ownerId != "" ==> actual.ownerId == expected.ownerId)
    && actual.archived == expected.archived && actual.pinned == expected.pinned && actual.folder == expected.folder
    && Comparable(actual.chat, expected.chat) == Comparable(expected.chat, expected.chat)
    && (expected.envelope.Some? ==> SameEnvelope(actual.envelope, expected.envelope.value))
  }

  lemma ComparableAgree(a: Chat, b: Chat)
    requires Comparable(a, b) == Comparable(b, b)
    ensures a == b.(id := a.id, marker := a.marker)
  {
    assert a == Comparable(a, b).(id := a.id, marker := a.marker);
    assert Comparable(b, b).(id := a.id, marker := a.marker) == b.(id := a.id, marker := a.marker);
  }

  /** The server id and the receipt marker play no part in reading a document. */
  lemma ReadingIgnoresReceipt(a: Chat, b: Chat)
    requires a == b.(id := a.id, marker := a.marker)
    ensures ValidChat(a) <==> ValidChat(b)
    ensures ValidChat(a) ==> Normalized(a) == Normalized(b)
  {
    assert MessagesOf(a) == MessagesOf(b) && CurrentOf(a) == CurrentOf(b);
    assert TitleOf(a) == TitleOf(b) && ViewIn(a) == ViewIn(b);
  }

  /** A strict match of two readable documents forces equal projections. */
  lemma MatchForcesProjection(actual: Snapshot, expected: Snapshot)
    requires MatchSnapshot(actual, expected) && ValidChat(expected.chat)
    ensures ValidChat(actual.chat) && Normalized(actual.chat) == Normalized(expected.chat)
  {
    ComparableAgree(actual.chat, expected.chat);
    ReadingIgnoresReceipt(actual.chat, expected.chat);
  }

  // ----- the operation marker -----

  /** The chat document a write sends. */
  function RequestBody(chat: Chat, operation: string, create: bool): Chat {
    var createdBy := if create then operation else if chat.marker.Present? then chat.marker.value.createdBy else "";
    chat.(marker := Present(Marker(BRIDGE_SCHEMA, createdBy, operation, map[])))
  }

  predicate HasOperationMarker(chat: Chat, operation: string, create: bool) {
    && chat.marker.Present? && chat.marker.value.schema == BRIDGE_SCHEMA
    && chat.marker.value.lastOperation == operation
    && (create ==> chat.marker.value.createdBy == operation)
  }

  /** The marker a desired document may carry so that its own write can be recognised. */
  predicate PlainMarker(chat: Chat) {
    KnowsCreator(chat.marker) ==> chat.marker.value.schema == BRIDGE_SCHEMA && chat.marker.value.extra == map[]
  }

  /** A stored write is recognised afterwards: it always carries the marker, and it
      matches the document it was made from exactly when an update's marker holds
      nothing beyond what the bridge itself writes. */
  lemma WriteIsRecognised(desired: Chat, operation: string, create: bool, stored: Chat)
    requires stored == RequestBody(desired, operation, create).(id := stored.id)
    ensures HasOperationMarker(stored, operation, create)
    ensures !create ==>
      (Comparable(stored, desired) == Comparable(desired, desired) <==> PlainMarker(desired))
    ensures create && !KnowsCreator(desired.marker) ==> Comparable(stored, desired) == Comparable(desired, desired)
  {
    if KnowsCreator(desired.marker) && !create {
      var m := desired.marker.value;
      assert stored.marker == Present(Marker(BRIDGE_SCHEMA, m.createdBy, operation, map[]));
      assert Comparable(stored, desired).marker.value == Marker(BRIDGE_SCHEMA, m.createdBy, "", map[]);
      assert Comparable(desired, desired).marker.value == Marker(m.schema, m.createdBy, "", m.extra);
    }
  }
}
