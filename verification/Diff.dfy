/** The three-way preview: what changed in the source, what changed in the target,
    and whether applying the source is safe. */
module Diff {
  import opened Basics
  import opened Domain

  datatype Kind =
    | Add | Modify | SourceMissing
    | SourceIdentityChanged | ParserVersionChanged | SourceStructureChanged | SourceOrderChanged
    | SourceIdentityUnverified
    | TargetCurrentChanged | TargetMissing | TargetStructureChanged | TargetMessageChanged
    | TargetNative | UnexpectedManaged | TargetStateChanged

  datatype Change = Change(sourceId: string, kind: Kind)

  datatype TitleChange = SetSource | SyncSource | Unchanged | Converged | PreserveTarget

  datatype Report = Report(
    added: seq<Change>, modified: seq<Change>, reduced: seq<Change>, conflicts: seq<Change>, title: TitleChange)

  datatype Verdict = Verdict(status: PlanStatus, report: Report)

  datatype Fault = BadSource | BadPrevious | TargetPair | BadBaseline | BadTarget

  // ----- lists of changes -----

  /** The changes `f` finds in `s`, in order. */
  function Collect<T>(s: seq<T>, f: T -> Option<Change>): (r: seq<Change>)
  {
    if s == [] then []
    else
      var rest, x := Collect(s[..|s| - 1], f), f(s[|s| - 1]);
      if x.Some? then rest + [x.value] else rest
  }

  lemma CollectNext<T>(s: seq<T>, f: T -> Option<Change>, i: nat)
    requires i < |s|
    ensures Collect(s[..i + 1], f) == Collect(s[..i], f) + (if f(s[i]).Some? then [f(s[i]).value] else [])
  {
    assert s[..i + 1][..i] == s[..i];
  }

  lemma CollectEmpty<T>(s: seq<T>, f: T -> Option<Change>)
    ensures Collect(s, f) == [] <==> forall i :: 0 <= i < |s| ==> f(s[i]).None?
  {
    if s != [] {
      var n := |s| - 1;
      CollectEmpty(s[..n], f);
      assert forall i | 0 <= i < n :: s[..n][i] == s[i];
    }
  }

  lemma CollectMember<T>(s: seq<T>, f: T -> Option<Change>, c: Change)
    ensures c in Collect(s, f) <==> exists i :: 0 <= i < |s| && f(s[i]) == Some(c)
  {
    if s != [] {
      var n := |s| - 1;
      CollectMember(s[..n], f, c);
      assert forall i | 0 <= i < n :: s[..n][i] == s[i];
    }
  }

  method Gather<T>(s: seq<T>, f: T -> Option<Change>) returns (r: seq<Change>)
    ensures r == Collect(s, f)
  {
    r := [];
    var i := 0;
    while i < |s|
      invariant 0 <= i <= |s| && r == Collect(s[..i], f)
    {
      CollectNext(s, f, i);
      var x := f(s[i]);
      if x.Some? { r := r + [x.value]; }
      i := i + 1;
    }
    assert s[..i] == s;
  }

  // ----- inputs -----

  /** The elements by id; of several with one id, the last. */
  function IndexBy<T>(ms: seq<T>, id: T -> string): (r: map<string, T>)
    ensures forall k :: k in r ==> r[k] in ms && id(r[k]) == k
    ensures forall m :: m in ms ==> id(m) in r
  {
    if ms == [] then map[] else IndexBy(ms[..|ms| - 1], id)[id(ms[|ms| - 1]) := ms[|ms| - 1]]
  }

  lemma IndexByAt<T>(ms: seq<T>, id: T -> string, i: nat)
    requires forall j, k :: 0 <= j < k < |ms| ==> id(ms[j]) != id(ms[k])
    requires i < |ms|
    ensures id(ms[i]) in IndexBy(ms, id) && IndexBy(ms, id)[id(ms[i])] == ms[i]
  {
    assert ms[i] in ms;
    var j :| 0 <= j < |ms| && ms[j] == IndexBy(ms, id)[id(ms[i])];
  }

  function MessageId(m: Message): string {
    m.id
  }

  function TargetMessageId(m: TargetMessage): string {
    m.id
  }

  function Index(ms: seq<Message>): (r: map<string, Message>)
    ensures forall id :: id in r ==> r[id] in ms && r[id].id == id
    ensures forall m :: m in ms ==> m.id in r
  {
    var r := IndexBy(ms, MessageId);
    assert forall m :: m in ms ==> MessageId(m) in r;
    r
  }

  function IndexTarget(ms: seq<TargetMessage>): (r: map<string, TargetMessage>)
    ensures forall id :: id in r ==> r[id] in ms && r[id].id == id
    ensures forall m :: m in ms ==> m.id in r
  {
    var r := IndexBy(ms, TargetMessageId);
    assert forall m :: m in ms ==> TargetMessageId(m) in r;
    r
  }

  predicate ValidSource(ms: seq<Message>) {
    && (forall i :: 0 <= i < |ms| ==> ms[i].id != "")
    && (forall i, j :: 0 <= i < j < |ms| ==> ms[i].id != ms[j].id)
  }

  predicate TargetFitsAt(ms: seq<TargetMessage>, i: nat)
    requires i < |ms|
  {
    && ms[i].id != "" && ms[i].order >= 0 && (ms[i].managed ==> ms[i].sourceId != "")
    && (forall j :: 0 <= j < i ==> ms[j].id != ms[i].id)
    && (forall j :: 0 <= j < i ==> ms[j].order < ms[i].order)
    && (forall j :: 0 <= j < i && ms[j].managed && ms[i].managed ==> ms[j].sourceId != ms[i].sourceId)
  }

  predicate ValidTarget(t: TargetSnapshot) {
    && (forall i {:trigger TargetFitsAt(t.messages, i)} :: 0 <= i < |t.messages| ==> TargetFitsAt(t.messages, i))
    && (t.current != "" ==> exists i :: 0 <= i < |t.messages| && t.messages[i].id == t.current)
  }

  lemma IndexAt(ms: seq<Message>, i: nat)
    requires ValidSource(ms) && i < |ms|
    ensures ms[i].id in Index(ms) && Index(ms)[ms[i].id] == ms[i]
  {
    IndexByAt(ms, MessageId, i);
  }

  lemma IndexTargetAt(ms: seq<TargetMessage>, i: nat)
    requires forall j, k :: 0 <= j < k < |ms| ==> ms[j].id != ms[k].id
    requires i < |ms|
    ensures ms[i].id in IndexTarget(ms) && IndexTarget(ms)[ms[i].id] == ms[i]
  {
    IndexByAt(ms, TargetMessageId, i);
  }

  method CheckSource(ms: seq<Message>) returns (ok: bool)
    ensures ok <==> ValidSource(ms)
  {
    var seen: set<string> := {};
    var i := 0;
    while i < |ms|
      invariant 0 <= i <= |ms| && ValidSource(ms[..i])
      invariant seen == set j | 0 <= j < i :: ms[j].id
    {
      if ms[i].id == "" || ms[i].id in seen { return false; }
      seen := seen + {ms[i].id};
      i := i + 1;
    }
    assert ms[..i] == ms;
    ok := true;
  }

  method CheckTarget(t: TargetSnapshot) returns (ok: bool)
    ensures ok <==> ValidTarget(t)
  {
    var ms := t.messages;
    var seenIds: set<string>, seenSources: set<string>, lastOrder := {}, {}, -1;
    var i := 0;
    while i < |ms|
      invariant 0 <= i <= |ms|
      invariant forall j {:trigger TargetFitsAt(ms, j)} :: 0 <= j < i ==> TargetFitsAt(ms, j)
      invariant seenIds == set j | 0 <= j < i :: ms[j].id
      invariant seenSources == set j | 0 <= j < i && ms[j].managed :: ms[j].sourceId
      invariant forall j :: 0 <= j < i ==> ms[j].order <= lastOrder
      invariant if i > 0 then lastOrder == ms[i - 1].order else lastOrder == -1
    {
      var m := ms[i];
      var fits := m.id != "" && m.id !in seenIds && m.order >= 0 && (i == 0 || m.order > lastOrder)
        && (m.managed ==> m.sourceId != "" && m.sourceId !in seenSources);
      assert fits <==> TargetFitsAt(ms, i);
      if !fits { return false; }
      seenIds := seenIds + {m.id};
      lastOrder := m.order;
      if m.managed { seenSources := seenSources + {m.sourceId}; }
      i := i + 1;
    }
    ok := t.current == "" || t.current in seenIds;
  }

  // ----- what each comparison reports -----

  predicate ContentEqual(a: Message, b: Message) {
    a.role == b.role && a.channel == b.channel && a.parts == b.parts
  }

  predicate TargetContentEqual(a: TargetMessage, b: TargetMessage) {
    a.role == b.role && a.channel == b.channel && a.parts == b.parts
  }

  predicate TargetStructureEqual(a: TargetMessage, b: TargetMessage) {
    a.sourceId == b.sourceId && a.managed == b.managed && a.order == b.order
  }

  predicate TargetMatchesSource(t: TargetMessage, m: Message) {
    t.managed && t.sourceId == m.id && t.role == m.role && t.channel == m.channel && t.parts == m.parts
  }

  function ReducedBy(current: map<string, Message>): Message -> Option<Change> {
    (m: Message) => if m.id in current then None else Some(Change(m.id, SourceMissing))
  }

  predicate Moved(was: Message, now: Message) {
    was.order != now.order || was.parentNodeId != now.parentNodeId
  }

  function MovedIn(current: map<string, Message>): Message -> Option<Change> {
    (m: Message) =>
      if m.id in current && Moved(m, current[m.id]) then Some(Change(m.id, SourceStructureChanged)) else None
  }

  function ModifiedIn(current: map<string, Message>): Message -> Option<Change> {
    (m: Message) =>
      if m.id in current && !Moved(m, current[m.id]) && !ContentEqual(m, current[m.id]) then Some(Change(m.id, Modify))
      else None
  }

  function AddedTo(previous: map<string, Message>): Message -> Option<Change> {
    (m: Message) => if m.id in previous then None else Some(Change(m.id, Add))
  }

  /** The target's copy of a baseline message is neither gone, nor restructured, nor
      edited to anything but the source's own new content. */
  function BaselineConflict(previous: map<string, Message>, current: map<string, Message>,
                            target: map<string, TargetMessage>): TargetMessage -> Option<Change>
  {
    (b: TargetMessage) =>
      if b.id !in target then Some(Change(b.sourceId, TargetMissing))
      else if !TargetStructureEqual(b, target[b.id]) then Some(Change(b.sourceId, TargetStructureChanged))
      else if TargetContentEqual(b, target[b.id]) then None
      else if b.sourceId in current && b.sourceId in previous
        && !ContentEqual(previous[b.sourceId], current[b.sourceId])
        && TargetMatchesSource(target[b.id], current[b.sourceId]) then None
      else Some(Change(b.sourceId, TargetMessageChanged))
  }

  function NativeConflict(baseline: map<string, TargetMessage>): TargetMessage -> Option<Change> {
    (t: TargetMessage) =>
      if t.id in baseline then None
      else Some(Change(t.sourceId, if t.managed then UnexpectedManaged else TargetNative))
  }

  function When(b: bool, kind: Kind): seq<Change> {
    if b then [Change("", kind)] else []
  }

  function TargetConflicts(previous: map<string, Message>, current: map<string, Message>,
                           baseline: TargetSnapshot, target: TargetSnapshot): seq<Change>
  {
    When(baseline.current != target.current, TargetCurrentChanged)
    + Collect(baseline.messages, BaselineConflict(previous, current, IndexTarget(target.messages)))
    + Collect(target.messages, NativeConflict(IndexTarget(baseline.messages)))
  }

  method CompareTarget(previous: map<string, Message>, current: map<string, Message>,
                       baseline: TargetSnapshot, target: TargetSnapshot) returns (r: seq<Change>)
    ensures r == TargetConflicts(previous, current, baseline, target)
  {
    r := [];
    if baseline.current != target.current { r := r + [Change("", TargetCurrentChanged)]; }
    var missing := Gather(baseline.messages, BaselineConflict(previous, current, IndexTarget(target.messages)));
    var native := Gather(target.messages, NativeConflict(IndexTarget(baseline.messages)));
    r := r + missing + native;
  }

  function Position(ms: seq<Message>, id: string): int {
    if ms == [] then -1 else if ms[|ms| - 1].id == id then |ms| - 1 else Position(ms[..|ms| - 1], id)
  }

  lemma PositionAt(ms: seq<Message>, i: nat)
    requires ValidSource(ms) && i < |ms|
    ensures Position(ms, ms[i].id) == i
  {
    if i < |ms| - 1 { PositionAt(ms[..|ms| - 1], i); }
  }

  /** Messages that are still present appear in the same relative order. */
  predicate SameRelativeOrder(previous: seq<Message>, current: seq<Message>) {
    forall i, j :: 0 <= i < j < |previous|
      && Position(current, previous[i].id) >= 0 && Position(current, previous[j].id) >= 0
      ==> Position(current, previous[i].id) < Position(current, previous[j].id)
  }

  method CheckRelativeOrder(previous: seq<Message>, current: seq<Message>) returns (ok: bool)
    ensures ok <==> SameRelativeOrder(previous, current)
  {
    var last := -1;
    var i := 0;
    while i < |previous|
      invariant 0 <= i <= |previous| && last >= -1 && SameRelativeOrder(previous[..i], current)
      invariant forall j :: 0 <= j < i ==> Position(current, previous[j].id) <= last
      invariant last == -1 || exists j :: 0 <= j < i && Position(current, previous[j].id) == last
    {
      var p := Position(current, previous[i].id);
      if p >= 0 {
        if p <= last { return false; }
        last := p;
      }
      i := i + 1;
    }
    assert previous[..i] == previous;
    ok := true;
  }

  function TitleVerdict(previous: string, current: string, targets: Option<(TargetSnapshot, TargetSnapshot)>,
                        policy: TitlePolicy): TitleChange
  {
    if policy.TargetOverride? then PreserveTarget
    else if targets.Some? && targets.value.1.title != targets.value.0.title then
      (if targets.value.1.title == current then Converged else PreserveTarget)
    else if previous != current then SyncSource
    else Unchanged
  }

  // ----- the preview -----

  function SourceConflicts(previous: SourceSnapshot, current: SourceSnapshot, stable: bool): seq<Change> {
    When(previous.identity.candidateId != "" && current.identity.candidateId != ""
         && previous.identity.candidateId != current.identity.candidateId, SourceIdentityChanged)
    + When(previous.parserVersion != current.parserVersion, ParserVersionChanged)
    + Collect(previous.messages, MovedIn(Index(current.messages)))
    + When(!SameRelativeOrder(previous.messages, current.messages), SourceOrderChanged)
    + When(!stable && previous.Business() != current.Business(), SourceIdentityUnverified)
  }

  function ReportOf(previous: SourceSnapshot, current: SourceSnapshot,
                    targets: Option<(TargetSnapshot, TargetSnapshot)>, policy: TitlePolicy, stable: bool): Report
  {
    var was, now := Index(previous.messages), Index(current.messages);
    Report(
      Collect(current.messages, AddedTo(was)),
      Collect(previous.messages, ModifiedIn(now)),
      Collect(previous.messages, ReducedBy(now)),
      SourceConflicts(previous, current, stable)
      + (if targets.Some? then TargetConflicts(was, now, targets.value.0, targets.value.1) else []),
      TitleVerdict(previous.title, current.title, targets, policy))
  }

  function StatusOf(partial: bool, r: Report): PlanStatus {
    if partial then UnsupportedContent
    else if r.reduced != [] || r.conflicts != [] then Conflict
    else if r.added != [] || r.modified != [] || r.title.SyncSource? then Ready
    else NoChange
  }

  predicate InputsOk(previous: Option<SourceSnapshot>, current: SourceSnapshot,
                     targets: Option<(TargetSnapshot, TargetSnapshot)>)
  {
    && ValidSource(current.messages)
    && (previous.Some? ==> ValidSource(previous.value.messages))
    && (targets.Some? ==> ValidTarget(targets.value.0) && ValidTarget(targets.value.1))
  }

  function VerdictOf(previous: Option<SourceSnapshot>, current: SourceSnapshot,
                     targets: Option<(TargetSnapshot, TargetSnapshot)>, policy: TitlePolicy, stable: bool): Verdict
  {
    match previous
    case None =>
      Verdict(if current.coverage.partial then UnsupportedContent else NeedsBindingConfirmation,
              Report(Collect(current.messages, AddedTo(map[])), [], [], [], SetSource))
    case Some(p) =>
      var r := ReportOf(p, current, targets, policy, stable);
      Verdict(StatusOf(current.coverage.partial, r), r)
  }

  /** The loop over the previous messages: each lands in at most one list. */
  method ComparePrevious(ms: seq<Message>, now: map<string, Message>)
    returns (modified: seq<Change>, reduced: seq<Change>, moved: seq<Change>)
    ensures modified == Collect(ms, ModifiedIn(now))
    ensures reduced == Collect(ms, ReducedBy(now))
    ensures moved == Collect(ms, MovedIn(now))
  {
    modified, reduced, moved := [], [], [];
    var i := 0;
    while i < |ms|
      invariant 0 <= i <= |ms|
      invariant reduced == Collect(ms[..i], ReducedBy(now))
      invariant moved == Collect(ms[..i], MovedIn(now))
      invariant modified == Collect(ms[..i], ModifiedIn(now))
    {
      var m := ms[i];
      CollectNext(ms, ReducedBy(now), i);
      CollectNext(ms, MovedIn(now), i);
      CollectNext(ms, ModifiedIn(now), i);
      if m.id !in now {
        reduced := reduced + [Change(m.id, SourceMissing)];
      } else if Moved(m, now[m.id]) {
        moved := moved + [Change(m.id, SourceStructureChanged)];
      } else if !ContentEqual(m, now[m.id]) {
        modified := modified + [Change(m.id, Modify)];
      }
      i := i + 1;
    }
    assert ms[..i] == ms;
  }

  method CompareSources(previous: SourceSnapshot, current: SourceSnapshot, stable: bool)
    returns (added: seq<Change>, modified: seq<Change>, reduced: seq<Change>, conflicts: seq<Change>)
    ensures added == Collect(current.messages, AddedTo(Index(previous.messages)))
    ensures modified == Collect(previous.messages, ModifiedIn(Index(current.messages)))
    ensures reduced == Collect(previous.messages, ReducedBy(Index(current.messages)))
    ensures conflicts == SourceConflicts(previous, current, stable)
  {
    conflicts := When(previous.identity.candidateId != "" && current.identity.candidateId != ""
                      && previous.identity.candidateId != current.identity.candidateId, SourceIdentityChanged);
    conflicts := conflicts + When(previous.parserVersion != current.parserVersion, ParserVersionChanged);
    var moved;
    modified, reduced, moved := ComparePrevious(previous.messages, Index(current.messages));
    conflicts := conflicts + moved;
    added := Gather(current.messages, AddedTo(Index(previous.messages)));
    var ordered := CheckRelativeOrder(previous.messages, current.messages);
    conflicts := conflicts + When(!ordered, SourceOrderChanged);
    conflicts := conflicts + When(!stable && previous.Business() != current.Business(), SourceIdentityUnverified);
  }

  function Both(baseline: Option<TargetSnapshot>,
                target: Option<TargetSnapshot>): Option<(TargetSnapshot, TargetSnapshot)>
  {
    if baseline.Some? && target.Some? then Some((baseline.value, target.value)) else None
  }

  method Preview(previous: Option<SourceSnapshot>, current: SourceSnapshot,
                 baseline: Option<TargetSnapshot>, target: Option<TargetSnapshot>, policy: TitlePolicy, stable: bool)
    returns (r: Result<Verdict, Fault>)
    ensures r.Ok? <==> baseline.Some? == target.Some? && InputsOk(previous, current, Both(baseline, target))
    ensures r.Ok? ==> r.value == VerdictOf(previous, current, Both(baseline, target), policy, stable)
  {
    hide ValidSource, ValidTarget, Collect, Index, SourceConflicts, TargetConflicts, AddedTo,
      ModifiedIn, ReducedBy;
    if baseline.Some? != target.Some? { return Err(TargetPair); }
    var fine := CheckSource(current.messages);
    if !fine { return Err(BadSource); }
    if previous.Some? {
      fine := CheckSource(previous.value.messages);
      if !fine { return Err(BadPrevious); }
    }
    if baseline.Some? {
      fine := CheckTarget(baseline.value);
      if !fine { return Err(BadBaseline); }
      fine := CheckTarget(target.value);
      if !fine { return Err(BadTarget); }
    }
    if previous.None? {
      var all := Gather(current.messages, AddedTo(map[]));
      var status := if current.coverage.partial then UnsupportedContent else NeedsBindingConfirmation;
      return Ok(Verdict(status, Report(all, [], [], [], SetSource)));
    }
    var p := previous.value;
    var added, modified, reduced, conflicts := CompareSources(p, current, stable);
    if baseline.Some? {
      var more := CompareTarget(Index(p.messages), Index(current.messages), baseline.value, target.value);
      conflicts := conflicts + more;
    }
    var title := TitleVerdict(p.title, current.title, Both(baseline, target), policy);
    var report := Report(added, modified, reduced, conflicts, title);
    r := Ok(Verdict(StatusOf(current.coverage.partial, report), report));
  }
}
