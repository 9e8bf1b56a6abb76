/** What a preview verdict means. */
module DiffTheorems {
  import opened Basics
  import opened Domain
  import opened Diff

  /** Messages numbered by position, as the share parser emits them. */
  predicate Indexed(ms: seq<Message>) {
    forall i :: 0 <= i < |ms| ==> ms[i].order == i
  }

  predicate KeptAt(was: seq<Message>, now: seq<Message>, i: nat)
    requires i < |was|
  {
    i < |now| && now[i].id == was[i].id && now[i].parentNodeId == was[i].parentNodeId
  }

  /** The new conversation continues the old one. */
  predicate Continues(was: seq<Message>, now: seq<Message>) {
    forall i {:trigger KeptAt(was, now, i)} :: 0 <= i < |was| ==> KeptAt(was, now, i)
  }

  predicate SameOrigin(was: SourceSnapshot, now: SourceSnapshot, stable: bool) {
    && (was.identity.candidateId == "" || now.identity.candidateId == ""
        || was.identity.candidateId == now.identity.candidateId)
    && was.parserVersion == now.parserVersion
    && (stable || was.Business() == now.Business())
  }

  lemma IndexedBy(ms: seq<Message>, id: string)
    requires ValidSource(ms)
    ensures id in Index(ms) <==> exists i :: 0 <= i < |ms| && ms[i].id == id
    ensures forall i :: 0 <= i < |ms| && ms[i].id == id ==> Index(ms)[id] == ms[i]
  {
    if id in Index(ms) {
      var j :| 0 <= j < |ms| && ms[j] == Index(ms)[id];
    }
    forall i | 0 <= i < |ms| && ms[i].id == id ensures id in Index(ms) && Index(ms)[id] == ms[i] { IndexAt(ms, i); }
  }

  lemma Kept(was: seq<Message>, now: seq<Message>, i: nat)
    requires ValidSource(was) && ValidSource(now) && Indexed(was) && Indexed(now) && i < |was|
    ensures ReducedBy(Index(now))(was[i]).None? && MovedIn(Index(now))(was[i]).None? <==> KeptAt(was, now, i)
  {
    IndexedBy(now, was[i].id);
  }

  lemma ContinuesKeepsOrder(was: seq<Message>, now: seq<Message>)
    requires ValidSource(now) && Continues(was, now)
    ensures SameRelativeOrder(was, now)
  {
    forall i | 0 <= i < |was| ensures Position(now, was[i].id) == i {
      assert KeptAt(was, now, i);
      PositionAt(now, i);
    }
  }

  lemma {:induction false} KeptAll(was: seq<Message>, now: seq<Message>)
    requires ValidSource(was) && ValidSource(now) && Indexed(was) && Indexed(now)
    ensures Collect(was, ReducedBy(Index(now))) == [] && Collect(was, MovedIn(Index(now))) == [] <==>
      Continues(was, now)
  {
    var f, g := ReducedBy(Index(now)), MovedIn(Index(now));
    CollectEmpty(was, f);
    CollectEmpty(was, g);
    forall i | 0 <= i < |was| ensures f(was[i]).None? && g(was[i]).None? <==> KeptAt(was, now, i) {
      Kept(was, now, i);
    }
  }

  lemma NothingAtAll(a: seq<Change>, b: seq<Change>, c: seq<Change>, d: seq<Change>, e: seq<Change>)
    ensures a + b + c + d + e == [] <==> a == [] && b == [] && c == [] && d == [] && e == []
  {
    assert |a + b + c + d + e| == |a| + |b| + |c| + |d| + |e|;
  }

  lemma SourceConflictsEmpty(previous: SourceSnapshot, current: SourceSnapshot, stable: bool)
    ensures SourceConflicts(previous, current, stable) == [] <==>
      (SameOrigin(previous, current, stable)
       && Collect(previous.messages, MovedIn(Index(current.messages))) == []
       && SameRelativeOrder(previous.messages, current.messages))
  {
    var moved, ordered :=
      Collect(previous.messages, MovedIn(Index(current.messages))),
      SameRelativeOrder(previous.messages, current.messages);
    var p, q := previous.identity.candidateId, current.identity.candidateId;
    NothingAtAll(When(p != "" && q != "" && p != q, SourceIdentityChanged),
                 When(previous.parserVersion != current.parserVersion, ParserVersionChanged),
                 moved, When(!ordered, SourceOrderChanged),
                 When(!stable && previous.Business() != current.Business(), SourceIdentityUnverified));
  }

  /** For numbered conversations the source side is free of conflicts exactly when
      the new one continues the old one and both come from the same place. */
  lemma {:induction false} AppendOnlyIff(previous: SourceSnapshot, current: SourceSnapshot, stable: bool)
    requires ValidSource(previous.messages) && ValidSource(current.messages)
    requires Indexed(previous.messages) && Indexed(current.messages)
    ensures Collect(previous.messages, ReducedBy(Index(current.messages))) == []
            && SourceConflicts(previous, current, stable) == []
      <==> Continues(previous.messages, current.messages) && SameOrigin(previous, current, stable)
  {
    KeptAll(previous.messages, current.messages);
    SourceConflictsEmpty(previous, current, stable);
    if Continues(previous.messages, current.messages) { ContinuesKeepsOrder(previous.messages, current.messages); }
  }

  // ----- reconstruction -----

  datatype Line = Line(id: string, role: string, channel: string, parts: seq<string>)

  function LineOf(m: Message): Line {
    Line(m.id, m.role, m.channel, m.parts)
  }

  function Transcript(ms: seq<Message>): (r: seq<Line>)
    ensures |r| == |ms| && forall i :: 0 <= i < |ms| ==> r[i] == LineOf(ms[i])
  {
    seq(|ms|, i requires 0 <= i < |ms| => LineOf(ms[i]))
  }

  /** The old transcript with the modified lines overwritten and the added ones appended. */
  function Patched(was: seq<Message>, now: map<string, Message>, modified: seq<Change>, added: seq<Change>): seq<Line>
    requires forall i :: 0 <= i < |added| ==> added[i].sourceId in now
  {
    seq(|was|, i requires 0 <= i < |was| =>
      if Change(was[i].id, Modify) in modified && was[i].id in now then LineOf(now[was[i].id]) else LineOf(was[i]))
    + seq(|added|, i requires 0 <= i < |added| => LineOf(now[added[i].sourceId]))
  }

  lemma AddedAt(was: seq<Message>, now: seq<Message>, i: nat)
    requires ValidSource(was) && ValidSource(now) && Continues(was, now) && i < |now|
    ensures AddedTo(Index(was))(now[i]) == if i < |was| then None else Some(Change(now[i].id, Add))
  {
    IndexedBy(was, now[i].id);
    if i < |was| { assert KeptAt(was, now, i); }
    forall j | 0 <= j < |was| ensures j < |now| && now[j].id == was[j].id { assert KeptAt(was, now, j); }
  }

  lemma {:induction false} TailCollected(now: seq<Message>, n: nat, f: Message -> Option<Change>)
    requires n <= |now|
    requires forall i :: 0 <= i < |now| ==> f(now[i]) == if i < n then None else Some(Change(now[i].id, Add))
    ensures |Collect(now, f)| == |now| - n
    ensures forall i :: 0 <= i < |Collect(now, f)| ==> Collect(now, f)[i] == Change(now[n + i].id, Add)
  {
    if |now| == n {
      CollectEmpty(now, f);
    } else {
      TailCollected(now[..|now| - 1], n, f);
    }
  }

  lemma {:induction false} AddedAreTail(was: seq<Message>, now: seq<Message>)
    requires ValidSource(was) && ValidSource(now) && Continues(was, now)
    ensures |was| <= |now|
    ensures var added := Collect(now, AddedTo(Index(was)));
      |added| == |now| - |was| && forall i :: 0 <= i < |added| ==> added[i] == Change(now[|was| + i].id, Add)
  {
    if was != [] { assert KeptAt(was, now, |was| - 1); }
    var f := AddedTo(Index(was));
    forall i | 0 <= i < |now| ensures f(now[i]) == if i < |was| then None else Some(Change(now[i].id, Add)) {
      AddedAt(was, now, i);
    }
    TailCollected(now, |was|, f);
  }

  /** Patching with what the comparison reports gives the new transcript. */
  lemma {:induction false} PatchedByReport(was: seq<Message>, now: seq<Message>)
    requires ValidSource(was) && ValidSource(now) && Indexed(was) && Indexed(now) && Continues(was, now)
    ensures var added, modified := Collect(now, AddedTo(Index(was))), Collect(was, ModifiedIn(Index(now)));
      && (forall i :: 0 <= i < |added| ==> added[i].sourceId in Index(now))
      && Transcript(now) == Patched(was, Index(now), modified, added)
      && (modified == [] && added == [] ==> Transcript(now) == Transcript(was))
  {
    AddedLines(was, now);
    forall i | 0 <= i < |was| ensures LineAt(was, now, Index(now), Collect(was, ModifiedIn(Index(now))), i) {
      OldLine(was, now, i);
    }
    PatchedIs(was, now, Index(now), Collect(was, ModifiedIn(Index(now))), Collect(now, AddedTo(Index(was))));
  }

  lemma OldLine(was: seq<Message>, now: seq<Message>, i: nat)
    requires ValidSource(was) && ValidSource(now) && Indexed(was) && Indexed(now) && Continues(was, now) && i < |was|
    ensures LineAt(was, now, Index(now), Collect(was, ModifiedIn(Index(now))), i)
  {
    assert KeptAt(was, now, i);
    IndexAt(now, i);
    CollectMember(was, ModifiedIn(Index(now)), Change(was[i].id, Modify));
  }

  /** Change `c` reports message `i` as added. */
  ghost predicate AddsLine(now: seq<Message>, index: map<string, Message>, c: Change, i: nat) {
    i < |now| && c.sourceId in index && LineOf(index[c.sourceId]) == LineOf(now[i])
  }

  lemma AddedLine(now: seq<Message>, c: Change, i: nat)
    requires ValidSource(now) && i < |now| && c == Change(now[i].id, Add)
    ensures c.sourceId in Index(now) && AddsLine(now, Index(now), c, i)
  {
    IndexAt(now, i);
  }

  lemma {:induction false} AddedLines(was: seq<Message>, now: seq<Message>)
    requires ValidSource(was) && ValidSource(now) && Continues(was, now)
    ensures var added := Collect(now, AddedTo(Index(was)));
      && |was| + |added| == |now|
      && forall i :: 0 <= i < |added| ==>
           added[i].sourceId in Index(now) && AddsLine(now, Index(now), added[i], |was| + i)
  {
    AddedAreTail(was, now);
    hide Continues, ValidSource, AddsLine, Index, AddedTo;
    var added := Collect(now, AddedTo(Index(was)));
    forall i | 0 <= i < |added|
      ensures added[i].sourceId in Index(now) && AddsLine(now, Index(now), added[i], |was| + i)
    {
      AddedLine(now, added[i], |was| + i);
    }
  }

  /** A verdict that allows applying says the new conversation only appended and
      edited: patching the old transcript with the report gives the new one, and
      nothing differs when no change is reported. */
  lemma {:induction false} ApplicableMeansAppendOnly(previous: SourceSnapshot, current: SourceSnapshot,
                                 targets: Option<(TargetSnapshot, TargetSnapshot)>, policy: TitlePolicy, stable: bool)
    requires ValidSource(previous.messages) && ValidSource(current.messages)
    requires Indexed(previous.messages) && Indexed(current.messages)
    requires var s := VerdictOf(Some(previous), current, targets, policy, stable).status; s.Ready? || s.NoChange?
    ensures var v, was, now :=
              VerdictOf(Some(previous), current, targets, policy, stable),
              previous.messages,
              current.messages;
      && Continues(was, now) && !current.coverage.partial
      && (forall i :: 0 <= i < |v.report.added| ==> v.report.added[i].sourceId in Index(now))
      && Transcript(now) == Patched(was, Index(now), v.report.modified, v.report.added)
      && (v.status.NoChange? ==> Transcript(now) == Transcript(was))
  {
    ApplicableMeansClean(previous, current, targets, policy, stable);
    AppendOnlyIff(previous, current, stable);
    PatchedByReport(previous.messages, current.messages);
  }

  lemma ApplicableMeansClean(previous: SourceSnapshot, current: SourceSnapshot,
                             targets: Option<(TargetSnapshot, TargetSnapshot)>, policy: TitlePolicy, stable: bool)
    requires var s := VerdictOf(Some(previous), current, targets, policy, stable).status; s.Ready? || s.NoChange?
    ensures !current.coverage.partial
    ensures Collect(previous.messages, ReducedBy(Index(current.messages))) == []
    ensures SourceConflicts(previous, current, stable) == []
    ensures targets.Some? ==>
      TargetConflicts(Index(previous.messages), Index(current.messages), targets.value.0, targets.value.1) == []
  {
    var conflicts := VerdictOf(Some(previous), current, targets, policy, stable).report.conflicts;
    assert conflicts == [];
    assert |SourceConflicts(previous, current, stable)| <= |conflicts|;
  }

  /** Line `i` of the old transcript is current or reported as modified. */
  ghost predicate LineAt(was: seq<Message>, now: seq<Message>, index: map<string, Message>, modified: seq<Change>,
                         i: nat)
    requires i < |was|
  {
    && i < |now| && was[i].id in index && index[was[i].id] == now[i]
    && (Change(was[i].id, Modify) in modified || LineOf(was[i]) == LineOf(now[i]))
  }

  lemma PatchedIs(was: seq<Message>, now: seq<Message>, index: map<string, Message>, modified: seq<Change>,
                  added: seq<Change>)
    requires forall i {:trigger LineAt(was, now, index, modified, i)} :: 0 <= i < |was| ==>
      LineAt(was, now, index, modified, i)
    requires |was| + |added| == |now|
    requires forall i :: 0 <= i < |added| ==> added[i].sourceId in index && AddsLine(now, index, added[i], |was| + i)
    ensures Transcript(now) == Patched(was, index, modified, added)
    ensures modified == [] && added == [] ==> Transcript(now) == Transcript(was)
  {
    var patched := Patched(was, index, modified, added);
    forall i | 0 <= i < |was|
      ensures patched[i] == LineOf(now[i]) && (modified == [] ==> LineOf(was[i]) == LineOf(now[i]))
    {
      assert LineAt(was, now, index, modified, i);
    }
    forall i | |was| <= i < |now| ensures patched[i] == LineOf(now[i]) {
      var j := i - |was|;
      assert AddsLine(now, index, added[j], |was| + j) && patched[i] == LineOf(index[added[j].sourceId]);
    }
    assert Transcript(now) == patched;
  }

  // ----- the target side -----

  /** A target message that needs no explanation: it is still in place, and its
      content is the baseline's or exactly what the source changed it to. */
  predicate Agreeable(was: map<string, Message>, now: map<string, Message>, b: TargetMessage, t: TargetMessage) {
    && t.id == b.id && TargetStructureEqual(b, t)
    && (TargetContentEqual(b, t)
        || (b.sourceId in now && b.sourceId in was && !ContentEqual(was[b.sourceId], now[b.sourceId])
            && TargetMatchesSource(t, now[b.sourceId])))
  }

  ghost predicate Ascending(ms: seq<TargetMessage>) {
    && (forall i, j :: 0 <= i < j < |ms| ==> ms[i].id != ms[j].id)
    && (forall i, j :: 0 <= i < j < |ms| ==> ms[i].order < ms[j].order)
  }

  ghost predicate Partner(m: TargetMessage, ms: seq<TargetMessage>, j: int) {
    0 <= j < |ms| && ms[j].id == m.id && ms[j].order == m.order
  }

  ghost predicate HasPartner(a: seq<TargetMessage>, i: nat, b: seq<TargetMessage>)
    requires i < |a|
  {
    exists j :: Partner(a[i], b, j)
  }

  ghost predicate AllPartnered(a: seq<TargetMessage>, b: seq<TargetMessage>) {
    forall i {:trigger HasPartner(a, i, b)} :: 0 <= i < |a| ==> HasPartner(a, i, b)
  }

  /** The last members of two paired lists are partners. */
  lemma LastPartners(a: seq<TargetMessage>, b: seq<TargetMessage>)
    requires Ascending(a) && Ascending(b) && AllPartnered(a, b) && AllPartnered(b, a) && a != []
    ensures b != [] && Partner(a[|a| - 1], b, |b| - 1)
  {
    assert HasPartner(a, |a| - 1, b);
    var j :| Partner(a[|a| - 1], b, j);
    assert HasPartner(b, |b| - 1, a);
    var i :| Partner(b[|b| - 1], a, i);
  }

  lemma DropLast(a: seq<TargetMessage>, b: seq<TargetMessage>)
    requires Ascending(a) && Ascending(b) && AllPartnered(a, b) && a != [] && b != []
    requires Partner(a[|a| - 1], b, |b| - 1)
    ensures AllPartnered(a[..|a| - 1], b[..|b| - 1])
  {
    var c, d := a[..|a| - 1], b[..|b| - 1];
    forall k | 0 <= k < |c| ensures HasPartner(c, k, d) {
      assert HasPartner(a, k, b);
      var l :| Partner(a[k], b, l);
      assert Partner(c[k], d, l);
    }
  }

  /** Two strictly ordered lists whose members pair up by id and order run in step. */
  lemma {:induction false} PairedInStep(a: seq<TargetMessage>, b: seq<TargetMessage>)
    requires Ascending(a) && Ascending(b) && AllPartnered(a, b) && AllPartnered(b, a)
    ensures |a| == |b| && forall i :: 0 <= i < |a| ==> a[i].id == b[i].id
    decreases |a|
  {
    if a != [] {
      LastPartners(a, b);
      DropLast(a, b);
      DropLast(b, a);
      PairedInStep(a[..|a| - 1], b[..|b| - 1]);
      assert a == a[..|a| - 1] + [a[|a| - 1]] && b == b[..|b| - 1] + [b[|b| - 1]];
    } else if b != [] {
      LastPartners(b, a);
    }
  }

  lemma ValidAscending(t: TargetSnapshot)
    requires ValidTarget(t)
    ensures Ascending(t.messages)
  {
    forall i, j | 0 <= i < j < |t.messages|
      ensures t.messages[i].id != t.messages[j].id && t.messages[i].order < t.messages[j].order
    {
      assert TargetFitsAt(t.messages, j);
    }
  }

  lemma IndexedTarget(ms: seq<TargetMessage>, id: string)
    requires Ascending(ms)
    ensures id in IndexTarget(ms) <==> exists i :: 0 <= i < |ms| && ms[i].id == id
    ensures forall i :: 0 <= i < |ms| && ms[i].id == id ==> IndexTarget(ms)[id] == ms[i]
  {
    if id in IndexTarget(ms) {
      var j :| 0 <= j < |ms| && ms[j] == IndexTarget(ms)[id];
    }
    forall i | 0 <= i < |ms| && ms[i].id == id ensures id in IndexTarget(ms) && IndexTarget(ms)[id] == ms[i] {
      IndexTargetAt(ms, i);
    }
  }

  ghost predicate AgreesSomewhere(was: map<string, Message>, now: map<string, Message>, m: TargetMessage,
                                  t: seq<TargetMessage>)
  {
    exists j :: Partner(m, t, j) && Agreeable(was, now, m, t[j])
  }

  lemma NoConflictAgrees(was: map<string, Message>, now: map<string, Message>, m: TargetMessage, t: seq<TargetMessage>)
    requires Ascending(t)
    ensures BaselineConflict(was, now, IndexTarget(t))(m).None? <==> AgreesSomewhere(was, now, m, t)
  {
    IndexedTarget(t, m.id);
    if m.id in IndexTarget(t) {
      var j :| 0 <= j < |t| && t[j].id == m.id;
      assert Partner(m, t, j) <==> t[j].order == m.order;
    }
  }

  lemma NoNativePartner(b: seq<TargetMessage>, t: seq<TargetMessage>, was: map<string, Message>,
                        now: map<string, Message>, j: nat)
    requires Ascending(b) && Ascending(t) && j < |t| && NativeConflict(IndexTarget(b))(t[j]).None?
    requires forall i :: 0 <= i < |b| ==> AgreesSomewhere(was, now, b[i], t)
    ensures HasPartner(t, j, b)
  {
    IndexedTarget(b, t[j].id);
    var i :| 0 <= i < |b| && b[i].id == t[j].id;
    assert AgreesSomewhere(was, now, b[i], t);
    var k :| Partner(b[i], t, k) && Agreeable(was, now, b[i], t[k]);
    assert k == j;
    assert Partner(t[j], b, i);
  }

  /** Comparing a valid target with a valid baseline reports nothing exactly when
      both list the same messages in the same sequence and every one is agreeable. */
  lemma {:induction false} TargetAgreesIff(was: map<string, Message>, now: map<string, Message>,
                                           baseline: TargetSnapshot, target: TargetSnapshot)
    requires ValidTarget(baseline) && ValidTarget(target)
    ensures TargetConflicts(was, now, baseline, target) == [] <==>
      (baseline.current == target.current && |baseline.messages| == |target.messages|
       && forall i :: 0 <= i < |baseline.messages| ==> Agreeable(was, now, baseline.messages[i], target.messages[i]))
  {
    ValidAscending(baseline);
    ValidAscending(target);
    hide ValidTarget, Agreeable, Ascending, IndexTarget, BaselineConflict, NativeConflict;
    AgreesInStep(was, now, baseline.messages, target.messages);
  }

  lemma {:induction false} AgreesInStep(was: map<string, Message>, now: map<string, Message>, b: seq<TargetMessage>,
                                        t: seq<TargetMessage>)
    requires Ascending(b) && Ascending(t)
    ensures (Collect(b, BaselineConflict(was, now, IndexTarget(t))) == []
             && Collect(t, NativeConflict(IndexTarget(b))) == [])
      <==> (|b| == |t| && forall i :: 0 <= i < |b| ==> Agreeable(was, now, b[i], t[i]))
  {
    CollectEmpty(b, BaselineConflict(was, now, IndexTarget(t)));
    CollectEmpty(t, NativeConflict(IndexTarget(b)));
    if Collect(b, BaselineConflict(was, now, IndexTarget(t))) == []
       && Collect(t, NativeConflict(IndexTarget(b))) == [] {
      QuietMeansAgreeable(was, now, b, t);
    }
    if |b| == |t| && forall i :: 0 <= i < |b| ==> Agreeable(was, now, b[i], t[i]) {
      forall i | 0 <= i < |b|
        ensures BaselineConflict(was, now, IndexTarget(t))(b[i]).None? && NativeConflict(IndexTarget(b))(t[i]).None?
      {
        AgreeableIsQuiet(was, now, b, t, i);
      }
    }
  }

  lemma AgreeableIsQuiet(was: map<string, Message>, now: map<string, Message>, b: seq<TargetMessage>,
                         t: seq<TargetMessage>, i: nat)
    requires Ascending(b) && Ascending(t) && i < |b| == |t| && Agreeable(was, now, b[i], t[i])
    ensures BaselineConflict(was, now, IndexTarget(t))(b[i]).None? && NativeConflict(IndexTarget(b))(t[i]).None?
  {
    NoConflictAgrees(was, now, b[i], t);
    assert Partner(b[i], t, i);
    IndexedTarget(b, t[i].id);
  }

  lemma {:induction false} QuietMeansAgreeable(was: map<string, Message>, now: map<string, Message>,
                                               b: seq<TargetMessage>, t: seq<TargetMessage>)
    requires Ascending(b) && Ascending(t)
    requires forall i :: 0 <= i < |b| ==> BaselineConflict(was, now, IndexTarget(t))(b[i]).None?
    requires forall j :: 0 <= j < |t| ==> NativeConflict(IndexTarget(b))(t[j]).None?
    ensures |b| == |t| && forall i :: 0 <= i < |b| ==> Agreeable(was, now, b[i], t[i])
  {
    forall i | 0 <= i < |b| ensures HasPartner(b, i, t) && AgreesSomewhere(was, now, b[i], t) {
      NoConflictAgrees(was, now, b[i], t);
      var j :| Partner(b[i], t, j) && Agreeable(was, now, b[i], t[j]);
    }
    forall j | 0 <= j < |t| ensures HasPartner(t, j, b) { NoNativePartner(b, t, was, now, j); }
    PairedInStep(b, t);
    forall i | 0 <= i < |b| ensures Agreeable(was, now, b[i], t[i]) {
      var j :| Partner(b[i], t, j) && Agreeable(was, now, b[i], t[j]);
      assert b[i].id == t[i].id;
      assert j == i;
    }
  }
}
