/** Concrete conversations and runs that show where an expected property fails. */
module Examples {
  import opened Basics
  import opened Domain
  import opened ChatGraph
  import opened Snapshots
  import opened Builder
  import opened BuildTheorems
  import opened Plans

  /** A conversation of one message, shared under a name. */
  function Talk(share: string, title: string): SourceSnapshot {
    SourceSnapshot(
      SOURCE_TYPE, Identity("", Unknown), share, title,
      [Message("m", "n", "user", "", ["Hello"], "", [], 0, None)], "n", None, 0,
      PARSER_VERSION, Coverage(false, 1, 0, 0, [], []))
  }

  lemma TalkIsUsable(share: string, title: string)
    requires share != ""
    ensures SourceOk(Talk(share, title)) && BuildOk(Talk(share, title), EMPTY_CHAT)
    ensures Talk(share, title).Business() == Talk(share, title)
  {
    var s := Talk(share, title);
    var sorted := SortByOrder(s.messages);
    assert multiset(sorted) == multiset(s.messages) && |sorted| == 1;
    assert sorted[0] in multiset(sorted);
    assert sorted == s.messages;
    assert OrderedOk(s.messages);
    hide SortByOrder;
    CreateRoundTrip(s);
  }

  // ----- a marker with a foreign member -----

  /** The readback of a write finds it: the document is readable, carries the marker
      and compares equal with what was intended. */
  ghost predicate Accepted(stored: Chat, desired: Chat, op: string, create: bool) {
    ValidChat(stored) && HasOperationMarker(stored, op, create)
    && Comparable(stored, desired) == Comparable(desired, desired)
  }

  /** What the target keeps of a create when it adds members of its own to the marker. */
  ghost function StoredWith(source: SourceSnapshot, op: string, extra: map<string, Json>): Chat
    requires source.messages != []
  {
    RequestBody(BuildChat(source, EMPTY_CHAT), op, true).(marker := Present(Marker(BRIDGE_SCHEMA, op, op, extra)))
  }

  lemma BuildKeepsMarker(source: SourceSnapshot, base: Chat)
    requires source.messages != []
    ensures BuildChat(source, base).marker == base.marker
  {
  }

  lemma StoredIsAccepted(source: SourceSnapshot, op: string, extra: map<string, Json>)
    requires BuildOk(source, EMPTY_CHAT)
    ensures var first, stored := BuildChat(source, EMPTY_CHAT), StoredWith(source, op, extra);
      Accepted(stored, first, op, true) && ValidChat(first) && Normalized(stored) == Normalized(first)
  {
    hide ValidChat, BuildChat;
    BuildKeepsMarker(source, EMPTY_CHAT);
    ReadingIgnoresReceipt(StoredWith(source, op, extra), BuildChat(source, EMPTY_CHAT));
  }

  /** An update's own write is accepted exactly when the marker it was built on is plain. */
  lemma OwnWriteIsAccepted(desired: Chat, op: string)
    requires ValidChat(desired)
    ensures Accepted(RequestBody(desired, op, false), desired, op, false) <==> PlainMarker(desired)
  {
    hide ValidChat, Comparable;
    ReadingIgnoresReceipt(RequestBody(desired, op, false), desired);
    WriteIsRecognised(desired, op, false, RequestBody(desired, op, false));
  }

  lemma EditBuildsOnStored(source: SourceSnapshot, edit: SourceSnapshot, op: string, extra: map<string, Json>)
    requires SourceOk(source) && SourceOk(edit) && Covers(source, edit) && Covers(edit, source)
    ensures BuildOk(source, EMPTY_CHAT) && BuildOk(edit, StoredWith(source, op, extra))
  {
    CreateRoundTrip(source);
    hide ValidChat, Mirrors, SourceOk, Covers, BuildOk, StoredWith, BuildChat, Accepted;
    StoredIsAccepted(source, op, extra);
    assert ValidChat(StoredWith(source, op, extra)) by {
      AcceptedIsValid(StoredWith(source, op, extra), BuildChat(source, EMPTY_CHAT), op, true);
    }
    MirroredEditBuilds(edit, StoredWith(source, op, extra), source);
  }

  lemma AcceptedIsValid(stored: Chat, desired: Chat, op: string, create: bool)
    requires Accepted(stored, desired, op, create)
    ensures ValidChat(stored)
  {
  }

  /** A create is accepted whatever the target adds to its marker, and the next edit can
      be built on what is stored; but the edit's own write, stored exactly as sent, is
      accepted only if nothing was added. */
  lemma {:induction false} MarkerMemberHidesUpdate(source: SourceSnapshot, edit: SourceSnapshot, op: string,
                                                   later: string, extra: map<string, Json>)
    requires SourceOk(source) && SourceOk(edit) && Covers(source, edit) && Covers(edit, source) && op != ""
    ensures Accepted(StoredWith(source, op, extra), BuildChat(source, EMPTY_CHAT), op, true)
    ensures BuildOk(edit, StoredWith(source, op, extra))
    ensures var desired := BuildChat(edit, StoredWith(source, op, extra));
      Accepted(RequestBody(desired, later, false), desired, later, false) <==> extra == map[]
  {
    EditBuildsOnStored(source, edit, op, extra);
    StoredIsAccepted(source, op, extra);
    hide SourceOk, Covers, PlanOk, Accepted, BuildChat, ValidChat;
    var stored := StoredWith(source, op, extra);
    BuildKeepsMarker(edit, stored);
    OwnWriteIsAccepted(BuildChat(edit, stored), later);
  }

  lemma TalksCover(share: string, a: string, b: string)
    ensures Covers(Talk(share, a), Talk(share, b))
  {
    assert Talk(share, a).messages == Talk(share, b).messages;
  }

  const NOTE := map["note" := Json("true")]

  /** Such a document: one message, one extra member in the marker, and a new title that
      is written but never recognised. */
  lemma RetitlingIsNotRecognised()
    ensures Accepted(StoredWith(Talk("one", "A"), "create", NOTE), BuildChat(Talk("one", "A"), EMPTY_CHAT), "create",
                     true)
    ensures BuildOk(Talk("one", "B"), StoredWith(Talk("one", "A"), "create", NOTE))
    ensures var desired := BuildChat(Talk("one", "B"), StoredWith(Talk("one", "A"), "create", NOTE));
      !Accepted(RequestBody(desired, "update", false), desired, "update", false)
  {
    TalkIsUsable("one", "A");
    TalkIsUsable("one", "B");
    TalksCover("one", "A", "B");
    TalksCover("one", "B", "A");
    assert NOTE != map[] by { assert "note" in NOTE; }
    hide *;
    MarkerMemberHidesUpdate(Talk("one", "A"), Talk("one", "B"), "create", "update", NOTE);
  }
}
