/** The synchronisation service: previews, applies and recovers single operations.
    Every store transaction and every request is a step of the protocol, and before
    each of them other callers may act or the process may crash. */
module Service {
  import opened Basics
  import opened Domain
  import opened Snapshots
  import opened Builder
  import opened Plans
  import opened Storage
  import opened Protocol
  import opened ProtocolInv
  import opened ProtocolContent
  import opened ServiceFacts
  import opened Session
  import ProtocolExchange
  import Client
  import Diff

  class Service {
    const session: Session
    const ttl: nat
    const stableIds: bool

    constructor (session: Session, ttl: nat, stableIds: bool)
      ensures this.session == session && this.ttl == ttl && this.stableIds == stableIds
    {
      this.session, this.ttl, this.stableIds := session, ttl, stableIds;
    }

    /** The live site and account are the configured ones. */
    ghost predicate Identified()
      reads session.client
    {
      session.client.identities != [] && session.client.identities[0]
    }

    /** What the next requests are answered with. */
    ghost function Ahead(): Replies
      reads session.client
    {
      Replies(session.client.Coming(0), session.client.Coming(1), session.client.Coming(2))
    }

    method FailOperation(id: string, code: string) returns (r: Result<Operation, Failure>)
      requires session.Valid()
      modifies session, session.store
      ensures session.Valid() && old(session.history) <= session.history && r.Err?
      ensures session.calm ==>
        old(session.calm)
        && session.store.db == Transition(old(session.store.db), id, SETTLEABLE, Failed, FailPatch(code)).db
    {
      hide IsRun, SentBy, Grows, Steady, Transition;
      var crashed := session.Elapse();
      if crashed { return Err(Crashed); }
      var updated := session.Fail(id, code);
      if updated.Err? { return Err(Stored(updated.error)); }
      r := Err(Failure(code));
    }

    method UnknownOperation(id: string, code: string) returns (r: Result<Operation, Failure>)
      requires session.Valid()
      modifies session, session.store
      ensures session.Valid() && old(session.history) <= session.history && r.Err?
      ensures session.calm ==>
        old(session.calm)
        && session.store.db
          == Transition(old(session.store.db), id, SUSPENDABLE, NeedsReconciliation, ReadbackPatch(code)).db
    {
      hide IsRun, SentBy, Grows, Steady, Transition;
      var crashed := session.Elapse();
      if crashed { return Err(Crashed); }
      var updated := session.Suspend(id, SUSPENDABLE, code);
      if updated.Err? { return Err(Stored(updated.error)); }
      r := Err(Failure(code));
    }

    /** Lets a waiting operation be verified again before it is finished. */
    method ResumeIfWaiting(record: Operation) returns (r: Option<Failure>)
      requires session.Valid() && record.id in session.store.db.ops
      modifies session, session.store
      ensures session.Valid() && old(session.history) <= session.history && (session.calm ==> old(session.calm))
      ensures session.calm ==> Survives(old(session.store.db), session.store.db, record.id)
      ensures session.calm && old(session.store.db.ops[record.id]) == record
              && record.status in {Verifying, NeedsReconciliation}
              && (record.kind == Create ==> record.target != "") ==>
        r.None? && OnlyRow(old(session.store.db), session.store.db, record.id)
        && session.store.db.ops[record.id].status.Verifying?
    {
      hide IsRun, SentBy, Grows, Steady, Transition;
      ghost var db := session.store.db;
      if record.status.NeedsReconciliation? {
        var crashed := session.Elapse();
        if crashed { return Some(Crashed); }
        TransitionSurvives(db, record.id, {NeedsReconciliation}, Verifying, ReadbackPatch(""));
        var resumed := session.Resume(record.id);
        if db.ops[record.id] == record && (record.kind == Create ==> record.target != "") { ResumedRow(db, record.id); }
        if resumed.Err? { return Some(Stored(resumed.error)); }
      }
      r := None;
    }

    // ----- updates -----

    method CompleteVerified(record: Operation, plan: Plan, state: BindingState, actual: Snapshot, now: int)
      returns (r: Result<Operation, Failure>)
      requires session.Valid() && Knows(session.store.db, record, plan) && record.kind == Update && Decoded(actual)
      requires state.id == plan.bindingId && KnowsBinding(session.store.db, state.id, state.binding)
      requires Recognised(session.inst, actual, record.id, plan, false, state.binding.target)
      modifies session, session.store
      ensures session.Valid() && old(session.history) <= session.history && (session.calm ==> old(session.calm))
      ensures r.Ok? ==>
        r.value.status.Succeeded? && record.id in session.store.db.ops && session.store.db.ops[record.id] == r.value
      ensures session.calm && old(session.store.db.ops[record.id]).status.Verifying?
              && old(session.store.db.bindings[state.id]) == state.binding ==>
        r.Ok? && Updated(old(session.store.db), session.store.db, record.id, plan, actual)
    {
      hide IsRun, SentBy, Grows, Steady, Knows, KnowsBinding, MatchesPlanned, Decoded, CompleteUpdate, CompleteFault,
        Updated, Enabled, DbAfter, Recognised, Tables, Schema, Content, ProtocolExchange.Exchange;
      ghost var db, was := session.store.db, session.history;
      KnowsMeans(db, record, plan);
      BindingMeans(db, state.id, state.binding);
      var crashed := session.Elapse();
      if crashed { return Err(Crashed); }
      session.GrownSince(was);
      KnowsKept(db, session.store.db, record, plan);
      BindingStillKnown(db, session.store.db, state.id, state.binding);
      session.Facts();
      ghost var ready := session.store.db;
      var baseline := Baseline(record.id, state.id, state.binding.version + 1, plan.source, actual.normalized,
                               actual.conflict);
      CompletionStep(session.inst, session.Here(), session.me, record, plan, state.binding, actual, now);
      if session.calm && db.ops[record.id].status.Verifying? && db.bindings[state.id] == state.binding {
        CompletedIs(session.inst, ready, record, plan, state.binding, actual, now);
      }
      CompleteOk(ready, session.inst, record.id, baseline, state.binding.version, now);
      var done := session.Complete(record.id, baseline, state.binding.version, now,
                                   Action.Complete(record.id, state.binding.version, actual, now));
      if done.Err? { return Err(Stored(done.error)); }
      r := Ok(session.store.db.ops[record.id]);
    }

    /** Completes an update from a read that shows its write; any other read leaves it
        waiting. */
    method FinishUpdate(record: Operation, plan: Plan, state: BindingState, actual: Snapshot, now: int)
      returns (r: Result<Operation, Failure>)
      requires session.Valid() && Knows(session.store.db, record, plan) && record.kind == Update && Decoded(actual)
      requires state.id == plan.bindingId && KnowsBinding(session.store.db, state.id, state.binding)
      modifies session, session.store
      ensures session.Valid() && old(session.history) <= session.history && (session.calm ==> old(session.calm))
      ensures r.Ok? ==>
        r.value.status.Succeeded? && Recognised(session.inst, actual, record.id, plan, false, state.binding.target)
      ensures session.calm && !Recognised(session.inst, actual, record.id, plan, false, state.binding.target) ==>
        && r.Err? && OnlyRow(old(session.store.db), session.store.db, record.id)
        && (old(session.store.db).ops[record.id].status in SUSPENDABLE ==>
              session.store.db.ops[record.id].status.NeedsReconciliation?)
      ensures session.calm && Recognised(session.inst, actual, record.id, plan, false, state.binding.target)
              && old(session.store.db.ops[record.id]) == record && record.status in {Verifying, NeedsReconciliation}
              && old(session.store.db.bindings[state.id]) == state.binding ==>
        r.Ok? && record.id in session.store.db.ops && r.value == session.store.db.ops[record.id]
        && Updated(old(session.store.db), session.store.db, record.id, plan, actual)
    {
      hide IsRun, SentBy, Grows, Steady, Transition, Knows, KnowsBinding, MatchesPlanned, Decoded, Updated;
      ghost var db, was := session.store.db, session.history;
      KnowsMeans(db, record, plan);
      BindingMeans(db, state.id, state.binding);
      if actual.chatId != state.binding.target || actual.ownerId != session.inst.account {
        SuspendedRow(db, record.id, "update_owner_mismatch");
        r := UnknownOperation(record.id, "update_owner_mismatch");
        return;
      }
      if !HasOperationMarker(actual.chat, record.id, false) || !MatchesPlanned(actual, plan) {
        SuspendedRow(db, record.id, "update_verification_mismatch");
        r := UnknownOperation(record.id, "update_verification_mismatch");
        return;
      }
      var fault := ResumeIfWaiting(record);
      if fault.Some? { return Err(fault.value); }
      session.GrownSince(was);
      KnowsKept(db, session.store.db, record, plan);
      BindingStillKnown(db, session.store.db, state.id, state.binding);
      ghost var ready := session.store.db;
      r := CompleteVerified(record, plan, state, actual, now);
      if OnlyRow(db, ready, record.id) && Updated(ready, session.store.db, record.id, plan, actual) {
        UpdatedThrough(db, ready, session.store.db, record.id, plan, actual);
      }
    }

    /** Reads the managed chat of an update whose outcome is unknown: a read that shows
        its write completes it, any other changes nothing. */
    method ReconcileUpdate(record: Operation, plan: Plan, now: int) returns (r: Result<Operation, Failure>)
      requires session.Valid() && Knows(session.store.db, record, plan) && record.kind == Update
      requires record.status.NeedsReconciliation?
      modifies session, session.store, session.client
      ensures session.Valid() && old(session.history) <= session.history && (session.calm ==> old(session.calm))
      ensures session.client.posted == old(session.client.posted)
      ensures r.Ok? ==> r.value.status.Succeeded?
      ensures session.calm && old(session.store.db.ops[record.id]) == record
              && plan.bindingId in old(session.store.db.bindings) ==>
        var id := old(session.store.db.bindings)[plan.bindingId].target;
        var seen := Seen(old(session.client.Coming(0)), session.inst.account, id);
        if seen.Some? && Recognised(session.inst, seen.value, record.id, plan, false, id) then
          r.Ok? && record.id in session.store.db.ops && r.value == session.store.db.ops[record.id]
          && Updated(old(session.store.db), session.store.db, record.id, plan, seen.value)
        else
          r.Err? && session.store.db == old(session.store.db)
      ensures session.calm && old(session.store.db.ops[record.id]) == record
              && plan.bindingId in old(session.store.db.bindings) ==>
        var id := old(session.store.db.bindings)[plan.bindingId].target;
        var seen := Seen(old(session.client.Coming(0)), session.inst.account, id);
        && (r == Err(Failure("update_still_uncertain")) <==>
              seen.Some? && ShowsBaseline(old(session.store.db), plan.bindingId, seen.value))
        && (r == Err(Failure("update_still_uncertain")) ==> session.store.db == old(session.store.db))
    {
      hide IsRun, SentBy, Grows, Steady, Transition, Knows, KnowsBinding, MatchesPlanned, Decoded, Updated, Tables,
        Schema, Content, ProtocolExchange.Exchange, MayRead, Client.ReadOutcome, Client.PathOk, AllowedBinding,
        MatchesBaseline, ShowsBaseline;
      ghost var db, was := session.store.db, session.history;
      var state := session.GetBindingState(plan.bindingId);
      session.Facts();
      KnownBinding(session.inst, db, record, plan);
      if state.Err? { return Err(Failure("untrusted_target")); }
      var crashed := session.Elapse();
      if crashed { return Err(Crashed); }
      session.GrownSince(was);
      KnowsKept(db, session.store.db, record, plan);
      BindingStillKnown(db, session.store.db, plan.bindingId, state.value.binding);
      ManagedMayBeRead(session.store.db, plan.bindingId, state.value.binding);
      var actual := session.Read(state.value.binding.target);
      if actual.None? { return Err(Failure("reconciliation_read_failed")); }
      BaselineSeen(session.inst, db, record, plan, actual.value);
      if HasOperationMarker(actual.value.chat, record.id, false) && MatchesPlanned(actual.value, plan) {
        r := FinishUpdate(record, plan, state.value, actual.value, now);
        return;
      }
      if MatchesBaseline(actual.value, state.value.baseline) { return Err(Failure("update_still_uncertain")); }
      r := Err(Failure("reconciliation_conflict"));
    }

    /** Reads the chat an unsent update is about to change, and checks that it is still
        the verified baseline the plan was made from. */
    method ReadUnchanged(record: Operation, plan: Plan, state: BindingState) returns (r: Result<Snapshot, Failure>)
      requires session.Valid() && KnowsBinding(session.store.db, state.id, state.binding)
      modifies session, session.store, session.client
      ensures session.Valid() && old(session.history) <= session.history && (session.calm ==> old(session.calm))
      ensures session.client.posted == old(session.client.posted)
      ensures r.Ok? ==>
        Decoded(r.value) && r.value.chatId == state.binding.target
        && MatchesBaseline(r.value, state.baseline) && plan.expectedConflict == Some(r.value.conflict)
      ensures r.Ok? ==> forall k: nat :: session.client.Coming(k) == old(session.client.Coming(k + 1))
      ensures r.Ok? && session.calm ==> session.store.db == old(session.store.db)
      ensures session.calm ==>
        var seen := Seen(old(session.client.Coming(0)), session.inst.account, state.binding.target);
        seen.Some? && MatchesBaseline(seen.value, state.baseline)
        && plan.expectedConflict == Some(seen.value.conflict) ==>
          r == Ok(seen.value)
    {
      hide IsRun, SentBy, Grows, Steady, Transition, KnowsBinding, Decoded, MayRead, Client.ReadOutcome, Client.PathOk,
        MatchesBaseline;
      ghost var db, was := session.store.db, session.history;
      var crashed := session.Elapse();
      if crashed { return Err(Crashed); }
      session.GrownSince(was);
      BindingStillKnown(db, session.store.db, state.id, state.binding);
      ManagedMayBeRead(session.store.db, state.id, state.binding);
      var actual := session.Read(state.binding.target);
      if actual.None? {
        var failed := FailOperation(record.id, "target_reread_failed");
        return Err(failed.error);
      }
      if !MatchesBaseline(actual.value, state.baseline) || plan.expectedConflict != Some(actual.value.conflict) {
        var failed := FailOperation(record.id, "target_conflict");
        return Err(failed.error);
      }
      r := Ok(actual.value);
    }

    /** Loads the binding of a prepared update, and fails the update if the binding has
        moved on. */
    method LoadCurrent(record: Operation, plan: Plan) returns (r: Result<BindingState, Failure>)
      requires session.Valid() && Knows(session.store.db, record, plan) && record.kind == Update
      modifies session, session.store
      ensures session.Valid() && old(session.history) <= session.history && (session.calm ==> old(session.calm))
      ensures r.Ok? ==>
        && session.store.db == old(session.store.db) && session.history == old(session.history)
        && session.calm == old(session.calm)
        && Storage.GetBindingState(session.store.db, session.inst, plan.bindingId) == Ok(r.value)
        && r.value.id == plan.bindingId && KnowsBinding(session.store.db, plan.bindingId, r.value.binding)
        && plan.bindingId in session.store.db.bindings && session.store.db.bindings[plan.bindingId] == r.value.binding
      ensures session.calm && AsRead(old(session.store.db), record) && record.status.Prepared? ==> r.Ok?
    {
      hide IsRun, SentBy, Transition, Knows, KnowsBinding, Tables, Schema, Content, ProtocolExchange.Exchange,
        Storage.GetBindingState;
      ghost var db := session.store.db;
      var state := session.GetBindingState(plan.bindingId);
      session.Facts();
      KnownBinding(session.inst, db, record, plan);
      if state.Err? { return Err(Failure("untrusted_target")); }
      if AsRead(db, record) && record.status.Prepared? { PreparedIsFresh(session.inst, db, record, plan); }
      if state.value.binding.version != plan.version {
        var failed := FailOperation(record.id, "binding_version_changed");
        return Err(failed.error);
      }
      r := Ok(state.value);
    }

    method ExecuteNoChange(record: Operation, plan: Plan, now: int) returns (r: Result<Operation, Failure>)
      requires session.Valid() && Knows(session.store.db, record, plan) && record.kind == Update
      requires plan.status.NoChange?
      modifies session, session.store, session.client
      ensures session.Valid() && old(session.history) <= session.history && (session.calm ==> old(session.calm))
      ensures session.client.posted == old(session.client.posted)
      ensures r.Ok? ==> r.value.status.Succeeded? && r.value.id == record.id
      ensures session.calm && AsRead(old(session.store.db), record) && record.status.Prepared?
              && Unchanged(session.inst, old(session.store.db), plan, old(session.client.Coming(0))) ==>
        r.Ok? && OnlyRow(old(session.store.db), session.store.db, record.id)
    {
      hide IsRun, SentBy, Grows, Steady, Transition, Knows, KnowsBinding, Decoded, Tables, Schema, Content,
        ProtocolExchange.Exchange, Storage.GetBindingState, AllowedBinding, MatchesBaseline;
      ghost var db, was := session.store.db, session.history;
      var state := LoadCurrent(record, plan);
      if state.Err? { return Err(state.error); }
      var actual := ReadUnchanged(record, plan, state.value);
      if actual.Err? { return Err(actual.error); }
      var crashed := session.Elapse();
      if crashed { return Err(Crashed); }
      session.GrownSince(was);
      KnowsKept(db, session.store.db, record, plan);
      session.Facts();
      KnownRow(session.inst, session.store.db, record, plan);
      KnowsMeans(session.store.db, record, plan);
      NoChangeMoves(session.store.db, record, now);
      var done := session.FinishNoChange(record.id, now);
      if done.Err? { return Err(Stored(done.error)); }
      r := Ok(done.value);
    }

    /** Builds the plan's document again from the stored source. */
    method Rebuild(record: Operation, plan: Plan, current: Option<Snapshot>) returns (r: Result<Snapshot, Failure>)
      requires session.Valid()
      modifies session, session.store
      ensures session.Valid() && old(session.history) <= session.history && (session.calm ==> old(session.calm))
      ensures r.Ok? ==>
        && plan.source in session.store.db.sources && BuildOk(session.store.db.sources[plan.source], BaseOf(current))
        && r.value == Built(session.store.db.sources[plan.source], current) && MatchesPlanned(r.value, plan)
      ensures r.Ok? ==>
        session.store.db == old(session.store.db) && session.history == old(session.history)
        && session.calm == old(session.calm)
      ensures plan.source in old(session.store.db).sources
              && BuildOk(old(session.store.db).sources[plan.source], BaseOf(current))
              && MatchesPlanned(Built(old(session.store.db).sources[plan.source], current), plan) ==>
        r.Ok?
    {
      hide IsRun, SentBy, Transition, BuildOk, MatchesPlanned;
      if plan.source !in session.store.db.sources { return Err(Failure("not_found")); }
      var desired := BuildSnapshot(session.store.db.sources[plan.source], current);
      if desired.Err? {
        var failed := FailOperation(record.id, "invalid_planned_target");
        return Err(failed.error);
      }
      if !MatchesPlanned(desired.value, plan) {
        var failed := FailOperation(record.id, "plan_payload_changed");
        return Err(failed.error);
      }
      r := Ok(desired.value);
    }

    /** Starts an operation; only the caller that did may send its write. */
    method Start(record: Operation, plan: Plan, target: string) returns (r: Result<Operation, Failure>)
      requires session.Valid() && Knows(session.store.db, record, plan)
      requires if record.kind == Create then target == "" else KnowsTarget(session.store.db, plan.bindingId, target)
      modifies session, session.store
      ensures session.Valid() && old(session.history) <= session.history && (session.calm ==> old(session.calm))
      ensures r.Ok? ==>
        Knows(session.store.db, record, plan) && Knows(session.store.db, r.value, plan) && r.value.id == record.id
        && r.value.kind == record.kind
      ensures r.Ok? ==> record.id in session.Here().claims && session.Here().claims[record.id] == session.me
      ensures r.Ok? && session.calm ==>
        && session.store.db.ops[record.id] == r.value && r.value.status.Applying?
        && OnlyRow(old(session.store.db), session.store.db, record.id)
      ensures session.calm && old(session.store.db.ops[record.id]) == record && record.status.Prepared?
              && record.target == record.receipt == "" ==>
        r.Ok? && r.value.target == target && r.value.receipt == ""
    {
      hide IsRun, SentBy, Grows, Steady, Transition, Knows, KnowsTarget, Tables, Schema, Content,
        ProtocolExchange.Exchange;
      ghost var db, was := session.store.db, session.history;
      var crashed := session.Elapse();
      if crashed { return Err(Crashed); }
      session.GrownSince(was);
      KnowsKept(db, session.store.db, record, plan);
      if record.kind != Create { TargetKept(db, session.store.db, plan.bindingId, target); }
      session.Facts();
      StartsAt(session.inst, session.store.db, record, plan, target);
      KnowsMeans(session.store.db, record, plan);
      ghost var before := session.store.db;
      ghost var begunFrom := session.history;
      BeginsWhenPrepared(before, record.id);
      var begun := session.Begin(record.id, target);
      if begun.Err? { return Err(Stored(begun.error)); }
      session.GrownSince(begunFrom);
      BegunRow(before, record, plan);
      KnowsKept(before, session.store.db, record, plan);
      r := Ok(begun.value);
    }

    /** Reads back an answered update to finish it. */
    method ReadBackUpdate(record: Operation, plan: Plan, state: BindingState, now: int)
      returns (r: Result<Operation, Failure>)
      requires session.Valid() && Knows(session.store.db, record, plan) && record.kind == Update
      requires state.id == plan.bindingId && KnowsBinding(session.store.db, state.id, state.binding)
      modifies session, session.store, session.client
      ensures session.Valid() && old(session.history) <= session.history && (session.calm ==> old(session.calm))
      ensures session.client.posted == old(session.client.posted)
      ensures r.Ok? ==> r.value.status.Succeeded?
      ensures session.calm && old(session.store.db.ops[record.id]) == record && record.status.Verifying?
              && old(session.store.db.bindings[state.id]) == state.binding ==>
        record.id in session.store.db.ops && !session.store.db.ops[record.id].status.Failed?
      ensures session.calm && old(session.store.db.ops[record.id]) == record && record.status.Verifying?
              && old(session.store.db.bindings[state.id]) == state.binding ==>
        var seen := Seen(old(session.client.Coming(0)), session.inst.account, state.binding.target);
        seen.Some? && Recognised(session.inst, seen.value, record.id, plan, false, state.binding.target) ==>
          r.Ok? && Updated(old(session.store.db), session.store.db, record.id, plan, seen.value)
    {
      hide IsRun, SentBy, Grows, Steady, Transition, Knows, KnowsBinding, MatchesPlanned, Decoded, Updated, MayRead,
        Client.ReadOutcome, Client.PathOk, Recognised;
      ghost var db, was := session.store.db, session.history;
      KnowsMeans(db, record, plan);
      BindingMeans(db, state.id, state.binding);
      var crashed := session.Elapse();
      if crashed { return Err(Crashed); }
      session.GrownSince(was);
      KnowsKept(db, session.store.db, record, plan);
      KnowsMeans(session.store.db, record, plan);
      BindingStillKnown(db, session.store.db, state.id, state.binding);
      ManagedMayBeRead(session.store.db, state.id, state.binding);
      var readback := session.Read(state.binding.target);
      ghost var last := session.store.db;
      if readback.None? {
        SuspendedRow(last, record.id, "update_readback_failed");
        r := UnknownOperation(record.id, "update_readback_failed");
        return;
      }
      r := FinishUpdate(record, plan, state, readback.value, now);
      if Updated(last, session.store.db, record.id, plan, readback.value) {
        UpdatedSucceeds(last, session.store.db, record.id, plan, readback.value);
      }
    }

    /** Records that an update was answered before anything is read back. */
    method ConfirmUpdate(record: Operation, plan: Plan, state: BindingState, now: int)
      returns (r: Result<Operation, Failure>)
      requires session.Valid() && Knows(session.store.db, record, plan) && record.kind == Update
      requires state.id == plan.bindingId && KnowsBinding(session.store.db, state.id, state.binding)
      modifies session, session.store, session.client
      ensures session.Valid() && old(session.history) <= session.history && (session.calm ==> old(session.calm))
      ensures session.client.posted == old(session.client.posted)
      ensures r.Ok? ==> r.value.status.Succeeded?
      ensures session.calm && old(session.store.db.ops[record.id]).status.Applying?
              && old(session.store.db.bindings[state.id]) == state.binding ==>
        record.id in session.store.db.ops && !session.store.db.ops[record.id].status.Failed?
      ensures session.calm && old(session.store.db.ops[record.id]) == record && record.status.Applying?
              && record.receipt == ""
              && old(session.store.db.bindings[state.id]) == state.binding ==>
        var seen := Seen(old(session.client.Coming(0)), session.inst.account, state.binding.target);
        seen.Some? && Recognised(session.inst, seen.value, record.id, plan, false, state.binding.target) ==>
          r.Ok? && Updated(old(session.store.db), session.store.db, record.id, plan, seen.value)
    {
      hide IsRun, SentBy, Grows, Steady, Transition, Knows, KnowsBinding, Updated, Recognised, Seen;
      ghost var db, was := session.store.db, session.history;
      KnowsMeans(db, record, plan);
      BindingMeans(db, state.id, state.binding);
      var crashed := session.Elapse();
      if crashed { return Err(Crashed); }
      session.GrownSince(was);
      KnowsKept(db, session.store.db, record, plan);
      KnowsMeans(session.store.db, record, plan);
      ghost var before := session.store.db;
      var recorded := session.RecordUpdate(record.id);
      RecordedRow(before, record, plan);
      if recorded.Err? { return Err(Stored(recorded.error)); }
      session.GrownSince(was);
      BindingStillKnown(db, session.store.db, state.id, state.binding);
      ghost var ready := session.store.db;
      r := ReadBackUpdate(recorded.value, plan, state, now);
      UpdatedThroughAny(before, ready, session.store.db, record.id, plan);
    }

    /** Sends the update this caller started. */
    method DispatchUpdate(record: Operation, plan: Plan, target: string, desired: Snapshot)
      returns (crashed: bool, answer: Result<Snapshot, Client.WriteFault>)
      requires session.Valid() && Knows(session.store.db, record, plan) && record.kind == Update
      requires MatchesPlanned(desired, plan)
      requires KnowsTarget(session.store.db, plan.bindingId, target)
      requires record.id in session.Here().claims && session.Here().claims[record.id] == session.me
      modifies session, session.store, session.client
      ensures session.Valid() && old(session.history) <= session.history
      ensures session.calm ==> old(session.calm) && !crashed && session.store.db == old(session.store.db)
      ensures session.client.posted in
        {old(session.client.posted), old(session.client.posted) + [Post(record.id, Some(target), desired)]}
      ensures !crashed && session.client.posted != old(session.client.posted) ==>
        answer == Client.WriteOutcome(old(session.client.Coming(0)), session.inst.account, record.id, false, target)
      ensures session.client.posted != old(session.client.posted) ==>
        forall k: nat :: session.client.Coming(k) == old(session.client.Coming(k + 1))
      ensures session.calm && !Blank(record.id) && Client.PathOk(target) ==>
        session.client.posted == old(session.client.posted) + [Post(record.id, Some(target), desired)]
    {
      hide IsRun, SentBy, Grows, Steady, Knows, KnowsTarget, MatchesPlanned, Tables, Schema, Content,
        ProtocolExchange.Exchange, Client.WriteOutcome, Client.PathOk, Blank, WriteTarget, Decoded;
      ghost var db, was, w := session.store.db, session.history, session.Here();
      answer := Err(Client.OutcomeUnknown);
      crashed := session.Elapse();
      if crashed { return; }
      session.GrownSince(was);
      KnowsKept(db, session.store.db, record, plan);
      TargetKept(db, session.store.db, plan.bindingId, target);
      StillClaimed(w, session.Here(), session.me, record.id);
      session.Facts();
      SendsAt(session.inst, session.store.db, record, plan, target, desired);
      answer := session.SendUpdate(target, record.id, desired);
    }

    /** Acts on what is known about the outcome of a sent update. */
    method SettleUpdate(record: Operation, plan: Plan, state: BindingState, answer: Result<Snapshot, Client.WriteFault>,
                        now: int)
      returns (r: Result<Operation, Failure>)
      requires session.Valid() && Knows(session.store.db, record, plan) && record.kind == Update
      requires state.id == plan.bindingId && KnowsBinding(session.store.db, state.id, state.binding)
      modifies session, session.store, session.client
      ensures session.Valid() && old(session.history) <= session.history && (session.calm ==> old(session.calm))
      ensures session.client.posted == old(session.client.posted)
      ensures r.Ok? ==> r.value.status.Succeeded?
      ensures session.calm && old(session.store.db.ops[record.id]).status.Applying?
              && old(session.store.db.bindings[state.id]) == state.binding
              && record.id in session.store.db.ops && session.store.db.ops[record.id].status.Failed? ==>
        answer == Err(Client.Refused)
      ensures session.calm && answer.Ok? && AsRead(old(session.store.db), record) && record.status.Applying?
              && record.receipt == ""
              && old(session.store.db.bindings[state.id]) == state.binding ==>
        var seen := Seen(old(session.client.Coming(0)), session.inst.account, state.binding.target);
        seen.Some? && Recognised(session.inst, seen.value, record.id, plan, false, state.binding.target) ==>
          r.Ok? && Updated(old(session.store.db), session.store.db, record.id, plan, seen.value)
    {
      hide IsRun, SentBy, Transition, Knows, KnowsBinding, Updated, Recognised, Seen;
      KnowsMeans(session.store.db, record, plan);
      BindingMeans(session.store.db, state.id, state.binding);
      if answer.Err? && answer.error.OutcomeUnknown? {
        SuspendedRow(session.store.db, record.id, "update_outcome_unknown");
        r := UnknownOperation(record.id, "update_outcome_unknown");
        return;
      }
      if answer.Err? {
        r := FailOperation(record.id, "update_failed");
        return;
      }
      r := ConfirmUpdate(record, plan, state, now);
    }

    /** Sends an update's one write, and acts on what is known about its outcome. Left
        alone, the operation fails only if the write was refused outright. */
    method WriteUpdate(record: Operation, plan: Plan, state: BindingState, desired: Snapshot, now: int)
      returns (r: Result<Operation, Failure>)
      requires session.Valid() && Knows(session.store.db, record, plan) && record.kind == Update
      requires MatchesPlanned(desired, plan)
      requires state.id == plan.bindingId && KnowsBinding(session.store.db, state.id, state.binding)
      modifies session, session.store, session.client
      ensures session.Valid() && old(session.history) <= session.history && (session.calm ==> old(session.calm))
      ensures session.client.posted in
        {old(session.client.posted),
         old(session.client.posted) + [Post(record.id, Some(state.binding.target), desired)]}
      ensures r.Ok? ==> r.value.status.Succeeded?
      ensures session.calm && old(session.store.db.bindings[state.id]) == state.binding
              && session.client.posted != old(session.client.posted)
              && record.id in session.store.db.ops && session.store.db.ops[record.id].status.Failed? ==>
        Client.WriteOutcome(old(session.client.Coming(0)), session.inst.account, record.id, false, state.binding.target)
          == Err(Client.Refused)
      ensures session.calm && Fresh(old(session.store.db), record) && Client.PathOk(state.binding.target)
              && old(session.store.db.bindings[state.id]) == state.binding
              && Client.WriteOutcome(old(session.client.Coming(0)), session.inst.account, record.id, false,
                                     state.binding.target).Ok? ==>
        && session.client.posted == old(session.client.posted) + [Post(record.id, Some(state.binding.target), desired)]
        && var seen := Seen(old(session.client.Coming(1)), session.inst.account, state.binding.target);
        seen.Some? && Recognised(session.inst, seen.value, record.id, plan, false, state.binding.target) ==>
          r.Ok? && Updated(old(session.store.db), session.store.db, record.id, plan, seen.value)
    {
      hide IsRun, SentBy, Grows, Steady, Transition, Knows, KnowsBinding, KnowsTarget, MatchesPlanned,
        Client.WriteOutcome, Updated, Recognised, Seen, Blank, Client.PathOk;
      ghost var db, was := session.store.db, session.history;
      BindingIsTarget(db, state.id, state.binding);
      KnowsMeans(db, record, plan);
      var started := Start(record, plan, state.binding.target);
      if started.Err? { return Err(started.error); }
      session.GrownSince(was);
      TargetKept(db, session.store.db, state.id, state.binding.target);
      ghost var begunDb, begun := session.store.db, session.history;
      var crashed, answer := DispatchUpdate(started.value, plan, state.binding.target, desired);
      if crashed { return Err(Crashed); }
      session.GrownSince(was);
      BindingStillKnown(db, session.store.db, state.id, state.binding);
      session.GrownSince(begun);
      KnowsKept(begunDb, session.store.db, started.value, plan);
      KnowsMeans(session.store.db, started.value, plan);
      ghost var ready := session.store.db;
      r := SettleUpdate(started.value, plan, state, answer, now);
      UpdatedThroughAny(db, ready, session.store.db, record.id, plan);
    }

    /** Rereads the chat of a prepared update and builds its document again. */
    method RebuildUpdate(record: Operation, plan: Plan) returns (r: Result<(BindingState, Snapshot), Failure>)
      requires session.Valid() && Knows(session.store.db, record, plan) && record.kind == Update
      modifies session, session.store, session.client
      ensures session.Valid() && old(session.history) <= session.history && (session.calm ==> old(session.calm))
      ensures session.client.posted == old(session.client.posted)
      ensures r.Ok? ==>
        && Knows(session.store.db, record, plan) && MatchesPlanned(r.value.1, plan)
        && r.value.0.id == plan.bindingId && KnowsBinding(session.store.db, plan.bindingId, r.value.0.binding)
        && Storage.GetBindingState(old(session.store.db), session.inst, plan.bindingId) == Ok(r.value.0)
        && plan.bindingId in old(session.store.db).bindings
        && old(session.store.db).bindings[plan.bindingId] == r.value.0.binding
        && forall k: nat :: session.client.Coming(k) == old(session.client.Coming(k + 1))
      ensures r.Ok? && session.calm ==> session.store.db == old(session.store.db)
      ensures session.calm && AsRead(old(session.store.db), record) && record.status.Prepared?
              && Unchanged(session.inst, old(session.store.db), plan, old(session.client.Coming(0))) ==>
        r.Ok? && Fresh(session.store.db, record) && Client.PathOk(r.value.0.binding.target)
    {
      hide IsRun, SentBy, Grows, Steady, Transition, Knows, KnowsBinding, MatchesPlanned, Decoded, Tables, Schema,
        Content, ProtocolExchange.Exchange, Storage.GetBindingState, AllowedBinding, MatchesBaseline, BuildOk, Built,
        Blank, Client.PathOk, Client.ReadOutcome;
      ghost var db, was := session.store.db, session.history;
      var state := LoadCurrent(record, plan);
      if state.Err? { return Err(state.error); }
      var actual := ReadUnchanged(record, plan, state.value);
      if actual.Err? { return Err(actual.error); }
      session.GrownSince(was);
      KnowsKept(db, session.store.db, record, plan);
      BindingStillKnown(db, session.store.db, plan.bindingId, state.value.binding);
      session.Facts();
      if session.calm { StillBuilds(session.inst, session.store.db, record, plan, actual.value); }
      if AsRead(session.store.db, record) && record.status.Prepared? {
        PreparedIsFresh(session.inst, session.store.db, record, plan);
      }
      var desired := Rebuild(record, plan, Some(actual.value));
      if desired.Err? { return Err(desired.error); }
      r := Ok((state.value, desired.value));
    }

    /** Executes a prepared update: one reread, one write, one readback. */
    method ExecuteUpdate(record: Operation, plan: Plan, now: int) returns (r: Result<Operation, Failure>)
      requires session.Valid() && Knows(session.store.db, record, plan) && record.kind == Update
      modifies session, session.store, session.client
      ensures session.Valid() && old(session.history) <= session.history && (session.calm ==> old(session.calm))
      ensures OneWrite(old(session.client.posted), session.client.posted, record.id, plan)
      ensures r.Ok? ==> r.value.status.Succeeded?
      ensures session.calm && plan.bindingId in old(session.store.db.bindings)
              && session.client.posted != old(session.client.posted)
              && record.id in session.store.db.ops && session.store.db.ops[record.id].status.Failed? ==>
        Client.WriteOutcome(old(session.client.Coming(1)), session.inst.account, record.id, false,
                            old(session.store.db.bindings)[plan.bindingId].target)
        == Err(Client.Refused)
      ensures session.calm && AsRead(old(session.store.db), record) && record.status.Prepared?
              && Answered(session.inst, old(session.store.db), record, plan, old(session.client.Coming(0)),
                          old(session.client.Coming(1)), old(session.client.Coming(2))) ==>
        && r.Ok? && |session.client.posted| == |old(session.client.posted)| + 1
        && Shown(session.inst, old(session.store.db), session.store.db, record.id, plan, old(session.client.Coming(2)))
    {
      hide IsRun, SentBy, Grows, Steady, Knows, KnowsBinding, MatchesPlanned, Storage.GetBindingState, MatchesBaseline,
        Client.WriteOutcome, Updated, Recognised, Fresh, Client.PathOk, Client.ReadOutcome;
      var built := RebuildUpdate(record, plan);
      if built.Err? { return Err(built.error); }
      r := WriteUpdate(record, plan, built.value.0, built.value.1, now);
    }

    // ----- creates -----

    method FinalizeVerified(record: Operation, plan: Plan, source: SourceSnapshot, actual: Snapshot, bindingId: string,
                            now: int)
      returns (r: Result<Operation, Failure>)
      requires session.Valid() && Knows(session.store.db, record, plan) && HasReceipt(record) && Decoded(actual)
      requires KnowsSource(session.store.db, plan.source, source)
      requires Recognised(session.inst, actual, record.id, plan, true, record.target)
      modifies session, session.store
      ensures session.Valid() && old(session.history) <= session.history && (session.calm ==> old(session.calm))
      ensures r.Ok? ==>
        r.value.status.Succeeded? && record.id in session.store.db.ops && session.store.db.ops[record.id] == r.value
      ensures session.calm ==> Survives(old(session.store.db), session.store.db, record.id)
      ensures session.calm && record.id in old(session.store.db.ops)
              && old(session.store.db.ops[record.id]).status.Verifying?
              && bindingId != "" && bindingId !in old(session.store.db).bindings
              && record.target !in old(session.store.db).allow ==>
        r.Ok? && Created(session.inst, old(session.store.db), session.store.db, record, plan, source, bindingId, actual)
    {
      hide IsRun, SentBy, Grows, Steady, Knows, MatchesPlanned, Decoded, FinalizeCreate, FinalizeFault, Created,
        Enabled, DbAfter, Recognised, Tables, Schema, Content, ProtocolExchange.Exchange, VerifiedBy, KnowsSource;
      ghost var db, was := session.store.db, session.history;
      var crashed := session.Elapse();
      if crashed { return Err(Crashed); }
      session.GrownSince(was);
      KnowsKept(db, session.store.db, record, plan);
      SourceStillKnown(db, session.store.db, plan.source, source);
      session.Facts();
      ghost var ready := session.store.db;
      FinalStep(session.inst, session.Here(), session.me, record, plan, source, actual, bindingId, now);
      KnowsMeans(ready, record, plan);
      if ready.ops[record.id].status.Verifying? && bindingId != "" && bindingId !in ready.bindings
         && record.target !in ready.allow {
        FinalizedIs(session.inst, ready, record, plan, source, actual, bindingId, now);
      }
      var v := VerifiedBy(record, bindingId, source, actual);
      FinalizeOk(ready, session.inst, v, now);
      FinalizeSurvives(ready, session.inst, v, now);
      VerifiedNames(record, bindingId, source, actual);
      var installed := session.Finalize(v, now, Action.Finalize(record.id, bindingId, actual, now));
      if installed.Err? { return Err(Stored(installed.error)); }
      r := Ok(session.store.db.ops[record.id]);
    }

    /** Installs a create from a read that shows its write; any other read leaves it
        waiting. */
    method FinishCreate(record: Operation, plan: Plan, source: SourceSnapshot, actual: Snapshot, bindingId: string,
                        now: int)
      returns (r: Result<Operation, Failure>)
      requires session.Valid() && Knows(session.store.db, record, plan) && HasReceipt(record) && Decoded(actual)
      requires KnowsSource(session.store.db, plan.source, source)
      modifies session, session.store
      ensures session.Valid() && old(session.history) <= session.history && (session.calm ==> old(session.calm))
      ensures r.Ok? ==>
        r.value.status.Succeeded? && Recognised(session.inst, actual, record.id, plan, true, record.target)
      ensures session.calm ==> Survives(old(session.store.db), session.store.db, record.id)
      ensures session.calm && !Recognised(session.inst, actual, record.id, plan, true, record.target) ==>
        && r.Err? && OnlyRow(old(session.store.db), session.store.db, record.id)
        && (old(session.store.db).ops[record.id].status in SUSPENDABLE ==>
              session.store.db.ops[record.id].status.NeedsReconciliation?)
      ensures session.calm && Recognised(session.inst, actual, record.id, plan, true, record.target)
              && record.id in old(session.store.db.ops) && old(session.store.db.ops[record.id]) == record
              && record.status in {Verifying, NeedsReconciliation} && bindingId != ""
              && bindingId !in old(session.store.db).bindings
              && record.target !in old(session.store.db).allow ==>
        r.Ok? && record.id in session.store.db.ops && r.value == session.store.db.ops[record.id]
        && Created(session.inst, old(session.store.db), session.store.db, record, plan, source, bindingId, actual)
    {
      hide IsRun, SentBy, Grows, Steady, Transition, Knows, KnowsSource, MatchesPlanned, Decoded, Created;
      ghost var db, was := session.store.db, session.history;
      KnowsMeans(db, record, plan);
      if actual.chatId != record.target || actual.ownerId != session.inst.account {
        SuspendedRow(db, record.id, "create_owner_mismatch");
        TransitionSurvives(db, record.id, SUSPENDABLE, NeedsReconciliation, ReadbackPatch("create_owner_mismatch"));
        r := UnknownOperation(record.id, "create_owner_mismatch");
        return;
      }
      if !HasOperationMarker(actual.chat, record.id, true) || !MatchesPlanned(actual, plan) {
        SuspendedRow(db, record.id, "create_verification_mismatch");
        TransitionSurvives(db, record.id, SUSPENDABLE, NeedsReconciliation,
                           ReadbackPatch("create_verification_mismatch"));
        r := UnknownOperation(record.id, "create_verification_mismatch");
        return;
      }
      var fault := ResumeIfWaiting(record);
      if fault.Some? { return Err(fault.value); }
      session.GrownSince(was);
      KnowsKept(db, session.store.db, record, plan);
      SourceStillKnown(db, session.store.db, plan.source, source);
      ghost var ready := session.store.db;
      r := FinalizeVerified(record, plan, source, actual, bindingId, now);
      if OnlyRow(db, ready, record.id)
         && Created(session.inst, ready, session.store.db, record, plan, source, bindingId, actual) {
        CreatedThrough(session.inst, db, ready, session.store.db, record, plan, source, bindingId, actual);
      }
    }

    /** Reads the chat a create without a binding was answered with. A create without a
        recorded receipt is left alone; a read that shows its write installs it. */
    method ReconcileCreate(record: Operation, plan: Plan, bindingId: string, now: int)
      returns (r: Result<Operation, Failure>)
      requires session.Valid() && Knows(session.store.db, record, plan) && record.kind == Create
      requires record.status.NeedsReconciliation?
      modifies session, session.store, session.client
      ensures session.Valid() && old(session.history) <= session.history && (session.calm ==> old(session.calm))
      ensures session.client.posted == old(session.client.posted)
      ensures r.Ok? ==> r.value.status.Succeeded?
      ensures !HasReceipt(record) ==>
        r.Err? && session.store.db == old(session.store.db) && session.client.asked == old(session.client.asked)
      ensures session.calm && old(session.store.db.ops[record.id]) == record && HasReceipt(record) ==>
        var seen := Seen(old(session.client.Coming(0)), session.inst.account, record.target);
        if record.target !in old(session.store.db).allow && seen.Some?
           && Recognised(session.inst, seen.value, record.id, plan, true, record.target) then
          bindingId != "" && bindingId !in old(session.store.db).bindings ==>
            && r.Ok? && record.id in session.store.db.ops && r.value == session.store.db.ops[record.id]
            && CreatedFrom(session.inst, old(session.store.db), session.store.db, record, plan, bindingId, seen.value)
        else
          r.Err? && OnlyRow(old(session.store.db), session.store.db, record.id)
          && session.store.db.ops[record.id].status.NeedsReconciliation?
    {
      hide IsRun, SentBy, Grows, Steady, Transition, Knows, KnowsSource, MatchesPlanned, Decoded, Created, Tables,
        Schema, Content, ProtocolExchange.Exchange, MayRead, Client.ReadOutcome, Client.PathOk, GetTrustedCreateTarget,
        HasOperationMarker;
      ghost var db, was := session.store.db, session.history;
      KnowsMeans(db, record, plan);
      RowUnchanged(db, record.id);
      if record.target == "" || record.receipt == "" { return Err(Failure("create_outcome_unknown")); }
      session.Facts();
      PlanSourceKnown(session.inst, db, record, plan);
      if db.ops[record.id] == record { TrustedIs(session.inst, db, record, plan); }
      var trusted := GetTrustedCreateTarget(session.store.db, record.id);
      if trusted.Err? { return Err(Stored(trusted.error)); }
      TrustedTarget(db, record, plan, trusted.value);
      var crashed := session.Elapse();
      if crashed { return Err(Crashed); }
      session.GrownSince(was);
      KnowsKept(db, session.store.db, record, plan);
      SourceStillKnown(db, session.store.db, plan.source, db.sources[plan.source]);
      TrustedMayBeRead(db, session.store.db, record.id, trusted.value);
      var actual := session.Read(trusted.value);
      if actual.None? { return Err(Failure("reconciliation_read_failed")); }
      var source := session.store.db.sources[plan.source];
      r := FinishCreate(record, plan, source, actual.value, bindingId, now);
    }

    /** Reads back an answered create to install it. */
    method ReadBackCreate(record: Operation, plan: Plan, source: SourceSnapshot, bindingId: string, now: int)
      returns (r: Result<Operation, Failure>)
      requires session.Valid() && Knows(session.store.db, record, plan) && HasReceipt(record)
      requires KnowsSource(session.store.db, plan.source, source)
      modifies session, session.store, session.client
      ensures session.Valid() && old(session.history) <= session.history && (session.calm ==> old(session.calm))
      ensures session.client.posted == old(session.client.posted)
      ensures r.Ok? ==> r.value.status.Succeeded?
      ensures session.calm ==> Survives(old(session.store.db), session.store.db, record.id)
      ensures session.calm && AsRead(old(session.store.db), record) && record.status.Verifying?
              && FreeSlot(old(session.store.db), bindingId, record.target) ==>
        var seen := Seen(old(session.client.Coming(0)), session.inst.account, record.target);
        seen.Some? && Recognised(session.inst, seen.value, record.id, plan, true, record.target) ==>
          r.Ok?
          && Created(session.inst, old(session.store.db), session.store.db, record, plan, source, bindingId, seen.value)
    {
      hide IsRun, SentBy, Grows, Steady, Transition, Knows, KnowsSource, MatchesPlanned, Decoded, Created, MayRead,
        Client.ReadOutcome, Client.PathOk, GetTrustedCreateTarget, Tables, Schema, Content, ProtocolExchange.Exchange,
        HasOperationMarker;
      ghost var db, was := session.store.db, session.history;
      KnowsMeans(db, record, plan);
      session.Facts();
      TrustedAsRead(session.inst, db, record, plan);
      var trusted := GetTrustedCreateTarget(session.store.db, record.id);
      if trusted.Err? { return Err(Stored(trusted.error)); }
      var crashed := session.Elapse();
      if crashed { return Err(Crashed); }
      session.GrownSince(was);
      KnowsKept(db, session.store.db, record, plan);
      SourceStillKnown(db, session.store.db, plan.source, source);
      TrustedMayBeRead(db, session.store.db, record.id, trusted.value);
      var actual := session.Read(trusted.value);
      if actual.None? {
        TransitionSurvives(session.store.db, record.id, SUSPENDABLE, NeedsReconciliation,
                           ReadbackPatch("create_readback_failed"));
        r := UnknownOperation(record.id, "create_readback_failed");
        return;
      }
      r := FinishCreate(record, plan, source, actual.value, bindingId, now);
    }

    /** Records the receipt of an answered create before anything is read. */
    method ConfirmCreate(record: Operation, plan: Plan, source: SourceSnapshot, chatId: string, bindingId: string,
                         now: int)
      returns (r: Result<Operation, Failure>)
      requires session.Valid() && Knows(session.store.db, record, plan)
      requires KnowsSource(session.store.db, plan.source, source)
      requires record.kind == Create && chatId != "" && CreatePosted(session.Here(), record.id)
      modifies session, session.store, session.client
      ensures session.Valid() && old(session.history) <= session.history && (session.calm ==> old(session.calm))
      ensures session.client.posted == old(session.client.posted)
      ensures r.Ok? ==> r.value.status.Succeeded?
      ensures session.calm ==> Survives(old(session.store.db), session.store.db, record.id)
      ensures session.calm && AsRead(old(session.store.db), record) && record.status.Applying?
              && record.target == record.receipt == ""
              && FreeSlot(old(session.store.db), bindingId, chatId) ==>
        var seen := Seen(old(session.client.Coming(0)), session.inst.account, chatId);
        seen.Some? && Recognised(session.inst, seen.value, record.id, plan, true, chatId) ==>
          r.Ok?
          && Created(session.inst, old(session.store.db), session.store.db, WithReceipt(record, chatId), plan, source,
                     bindingId, seen.value)
    {
      hide IsRun, SentBy, Grows, Steady, Transition, Knows, KnowsSource, CreatePosted, Created, Recognised, Seen;
      ghost var db, was, w := session.store.db, session.history, session.Here();
      var crashed := session.Elapse();
      if crashed { return Err(Crashed); }
      SteadyGrows(w, session.Here(), session.me);
      StillPosted(w, session.Here(), record.id);
      session.NoteReply(record.id, chatId);
      w := session.Here();
      crashed := session.Elapse();
      if crashed { return Err(Crashed); }
      SteadyGrows(w, session.Here(), session.me);
      session.GrownSince(was);
      KnowsKept(db, session.store.db, record, plan);
      KnowsMeans(session.store.db, record, plan);
      ghost var before := session.store.db;
      TransitionSurvives(before, record.id, {Applying}, Verifying, ReceiptPatch(chatId));
      var recorded := session.RecordReceipt(record.id, chatId);
      ReceiptRow(before, record, plan, chatId);
      if recorded.Err? { return Err(Stored(recorded.error)); }
      session.GrownSince(was);
      SourceStillKnown(db, session.store.db, plan.source, source);
      ghost var ready := session.store.db;
      r := ReadBackCreate(recorded.value, plan, source, bindingId, now);
      CreatedThroughAny(session.inst, before, ready, session.store.db, recorded.value, WithReceipt(record, chatId),
                        plan, source, bindingId);
    }

    /** Sends the create this caller started. */
    method DispatchCreate(record: Operation, plan: Plan, desired: Snapshot)
      returns (crashed: bool, answer: Result<Snapshot, Client.WriteFault>)
      requires session.Valid() && Knows(session.store.db, record, plan) && record.kind == Create
      requires MatchesPlanned(desired, plan)
      requires record.id in session.Here().claims && session.Here().claims[record.id] == session.me
      modifies session, session.store, session.client
      ensures session.Valid() && old(session.history) <= session.history
      ensures session.calm ==> old(session.calm) && !crashed && session.store.db == old(session.store.db)
      ensures session.client.posted in
        {old(session.client.posted), old(session.client.posted) + [Post(record.id, None, desired)]}
      ensures !crashed && answer.Ok? ==> CreatePosted(session.Here(), record.id) && answer.value.chatId != ""
      ensures !crashed && session.client.posted != old(session.client.posted) ==>
        answer == Client.WriteOutcome(old(session.client.Coming(0)), session.inst.account, record.id, true, "")
      ensures session.client.posted != old(session.client.posted) ==>
        forall k: nat :: session.client.Coming(k) == old(session.client.Coming(k + 1))
      ensures session.calm && !Blank(record.id) ==>
        session.client.posted == old(session.client.posted) + [Post(record.id, None, desired)]
    {
      hide IsRun, SentBy, Grows, Steady, Knows, MatchesPlanned, Tables, Schema, Content, ProtocolExchange.Exchange,
        Client.WriteOutcome, Blank, WriteTarget, Decoded, CreatePosted;
      ghost var db, was, w := session.store.db, session.history, session.Here();
      answer := Err(Client.OutcomeUnknown);
      crashed := session.Elapse();
      if crashed { return; }
      session.GrownSince(was);
      KnowsKept(db, session.store.db, record, plan);
      StillClaimed(w, session.Here(), session.me, record.id);
      session.Facts();
      SendsAt(session.inst, session.store.db, record, plan, "", desired);
      NowPosted(session.Here(), record.id, desired);
      answer := session.SendCreate(record.id, desired);
      if answer.Ok? { AnswerNamesChat(answer.value); }
    }

    /** Acts on what is known about the outcome of a sent create. */
    method SettleCreate(record: Operation, plan: Plan, source: SourceSnapshot,
                        answer: Result<Snapshot, Client.WriteFault>, bindingId: string, now: int)
      returns (r: Result<Operation, Failure>)
      requires session.Valid() && Knows(session.store.db, record, plan) && record.kind == Create
      requires KnowsSource(session.store.db, plan.source, source)
      requires answer.Ok? ==> answer.value.chatId != "" && CreatePosted(session.Here(), record.id)
      modifies session, session.store, session.client
      ensures session.Valid() && old(session.history) <= session.history && (session.calm ==> old(session.calm))
      ensures session.client.posted == old(session.client.posted)
      ensures r.Ok? ==> r.value.status.Succeeded?
      ensures session.calm && old(session.store.db.ops[record.id]).status.Applying?
              && record.id in session.store.db.ops && session.store.db.ops[record.id].status.Failed? ==>
        answer == Err(Client.Refused)
      ensures session.calm && answer.Ok? && AsRead(old(session.store.db), record) && record.status.Applying?
              && record.target == record.receipt == ""
              && FreeSlot(old(session.store.db), bindingId, answer.value.chatId) ==>
        var seen := Seen(old(session.client.Coming(0)), session.inst.account, answer.value.chatId);
        seen.Some? && Recognised(session.inst, seen.value, record.id, plan, true, answer.value.chatId) ==>
          r.Ok?
          && Created(session.inst, old(session.store.db), session.store.db, WithReceipt(record, answer.value.chatId),
                     plan, source, bindingId, seen.value)
    {
      hide IsRun, SentBy, Transition, Knows, KnowsSource, Created, Recognised, Seen, CreatePosted, FreeSlot;
      KnowsMeans(session.store.db, record, plan);
      if answer.Err? && answer.error.OutcomeUnknown? {
        SuspendedRow(session.store.db, record.id, "create_outcome_unknown");
        r := UnknownOperation(record.id, "create_outcome_unknown");
        return;
      }
      if answer.Err? {
        r := FailOperation(record.id, "create_failed");
        return;
      }
      r := ConfirmCreate(record, plan, source, answer.value.chatId, bindingId, now);
    }

    /** Sends a create's one write, and acts on what is known about its outcome. Left
        alone, the operation fails only if the write was refused outright. */
    method WriteCreate(record: Operation, plan: Plan, source: SourceSnapshot, desired: Snapshot, bindingId: string,
                       now: int)
      returns (r: Result<Operation, Failure>)
      requires session.Valid() && Knows(session.store.db, record, plan) && record.kind == Create
      requires MatchesPlanned(desired, plan)
      requires KnowsSource(session.store.db, plan.source, source)
      modifies session, session.store, session.client
      ensures session.Valid() && old(session.history) <= session.history && (session.calm ==> old(session.calm))
      ensures session.client.posted in
        {old(session.client.posted), old(session.client.posted) + [Post(record.id, None, desired)]}
      ensures r.Ok? ==> r.value.status.Succeeded?
      ensures session.calm && session.client.posted != old(session.client.posted)
              && record.id in session.store.db.ops && session.store.db.ops[record.id].status.Failed? ==>
        Client.WriteOutcome(old(session.client.Coming(0)), session.inst.account, record.id, true, "")
          == Err(Client.Refused)
      ensures session.calm && Fresh(old(session.store.db), record) ==>
        session.client.posted == old(session.client.posted) + [Post(record.id, None, desired)]
      ensures session.calm && Fresh(old(session.store.db), record)
              && Installs(session.inst, old(session.store.db), record, plan, bindingId, old(session.client.Coming(0)),
                          old(session.client.Coming(1))) ==>
        r.Ok?
        && Installed(session.inst, old(session.store.db), session.store.db, record, plan, source, bindingId,
                     old(session.client.Coming(0)), old(session.client.Coming(1)))
    {
      hide IsRun, SentBy, Grows, Steady, Transition, Knows, KnowsSource, MatchesPlanned, Client.WriteOutcome,
        CreatePosted, Created, Recognised, Seen, Blank, Tables, Schema, Content, ProtocolExchange.Exchange, Decoded;
      ghost var db, was := session.store.db, session.history;
      KnowsMeans(db, record, plan);
      var started := Start(record, plan, "");
      if started.Err? { return Err(started.error); }
      ghost var begunDb, begun := session.store.db, session.history;
      var crashed, answer := DispatchCreate(started.value, plan, desired);
      if crashed { return Err(Crashed); }
      session.GrownSince(begun);
      KnowsKept(begunDb, session.store.db, started.value, plan);
      KnowsMeans(session.store.db, started.value, plan);
      session.GrownSince(was);
      SourceStillKnown(db, session.store.db, plan.source, source);
      ghost var ready := session.store.db;
      r := SettleCreate(started.value, plan, source, answer, bindingId, now);
      if answer.Ok? {
        CreatedThroughAny(session.inst, db, ready, session.store.db, WithReceipt(started.value, answer.value.chatId),
                          WithReceipt(record, answer.value.chatId), plan, source, bindingId);
      }
    }

    /** Executes a prepared create: one write, then the receipt, then one readback. */
    method ExecuteCreate(record: Operation, plan: Plan, bindingId: string, now: int)
      returns (r: Result<Operation, Failure>)
      requires session.Valid() && Knows(session.store.db, record, plan) && record.kind == Create
      modifies session, session.store, session.client
      ensures session.Valid() && old(session.history) <= session.history && (session.calm ==> old(session.calm))
      ensures OneWrite(old(session.client.posted), session.client.posted, record.id, plan)
      ensures r.Ok? ==> r.value.status.Succeeded?
      ensures session.calm && session.client.posted != old(session.client.posted)
              && record.id in session.store.db.ops && session.store.db.ops[record.id].status.Failed? ==>
        Client.WriteOutcome(old(session.client.Coming(0)), session.inst.account, record.id, true, "")
          == Err(Client.Refused)
      ensures session.calm && AsRead(old(session.store.db), record) && record.status.Prepared? ==>
        |session.client.posted| == |old(session.client.posted)| + 1
      ensures session.calm && AsRead(old(session.store.db), record) && record.status.Prepared?
              && Installs(session.inst, old(session.store.db), record, plan, bindingId, old(session.client.Coming(0)),
                          old(session.client.Coming(1))) ==>
        r.Ok?
        && InstalledFrom(session.inst, old(session.store.db), session.store.db, record, plan, bindingId,
                         old(session.client.Coming(0)), old(session.client.Coming(1)))
    {
      hide IsRun, SentBy, Grows, Steady, Transition, Knows, KnowsSource, MatchesPlanned, Decoded, Client.WriteOutcome,
        BuildOk, Built, Created, Recognised, Seen, Tables, Schema, Content, ProtocolExchange.Exchange, Blank;
      ghost var db, was := session.store.db, session.history;
      session.Facts();
      if session.calm { StillBuildsNew(session.inst, db, record, plan); }
      if AsRead(db, record) && record.status.Prepared? { PreparedIsFresh(session.inst, db, record, plan); }
      var desired := Rebuild(record, plan, None);
      if desired.Err? { return Err(desired.error); }
      SourceHere(session.store.db, plan.source);
      var source := session.store.db.sources[plan.source];
      r := WriteCreate(record, plan, source, desired.value, bindingId, now);
    }

    // ----- recovery -----

    /** Marks an interrupted write as uncertain. */
    method MarkInterrupted(record: Operation, plan: Plan) returns (r: Result<Operation, Failure>)
      requires session.Valid() && Knows(session.store.db, record, plan)
      requires record.status in {Applying, Verifying, NeedsReconciliation}
      modifies session, session.store
      ensures session.Valid() && old(session.history) <= session.history && (session.calm ==> old(session.calm))
      ensures r.Ok? ==>
        && Knows(session.store.db, r.value, plan) && r.value.id == record.id && r.value.kind == record.kind
        && r.value.status.NeedsReconciliation?
      ensures session.calm && old(session.store.db.ops[record.id]) == record ==>
        && r.Ok? && OnlyRow(old(session.store.db), session.store.db, record.id)
        && session.store.db.ops[record.id] == r.value
        && r.value.target == record.target && r.value.receipt == record.receipt
    {
      hide IsRun, SentBy, Grows, Steady, Transition, Knows;
      ghost var db, was := session.store.db, session.history;
      KnowsMeans(db, record, plan);
      RowUnchanged(db, record.id);
      if record.status.NeedsReconciliation? { return Ok(record); }
      var crashed := session.Elapse();
      if crashed { return Err(Crashed); }
      session.GrownSince(was);
      KnowsKept(db, session.store.db, record, plan);
      InterruptedRow(session.store.db, record, plan);
      var marked := session.Suspend(record.id, {Applying, Verifying}, "interrupted_write");
      if marked.Err? { return Err(Stored(marked.error)); }
      r := Ok(marked.value);
    }

    /** Recovers an update whose write may have been sent. It never writes. */
    method RecoverUpdate(record: Operation, plan: Plan, now: int) returns (r: Result<Operation, Failure>)
      requires session.Valid() && Knows(session.store.db, record, plan)
      requires record.kind == Update && record.status in {Applying, Verifying, NeedsReconciliation}
      modifies session, session.store, session.client
      ensures session.Valid() && old(session.history) <= session.history && (session.calm ==> old(session.calm))
      ensures session.client.posted == old(session.client.posted)
      ensures r.Ok? ==> r.value.status.Succeeded?
      ensures session.calm && old(session.store.db.ops[record.id]) == record
              && plan.bindingId in old(session.store.db.bindings) ==>
        var id := old(session.store.db.bindings)[plan.bindingId].target;
        var seen := Seen(old(session.client.Coming(0)), session.inst.account, id);
        if seen.Some? && Recognised(session.inst, seen.value, record.id, plan, false, id) then
          && r.Ok? && record.id in session.store.db.ops && r.value == session.store.db.ops[record.id]
          && Updated(old(session.store.db), session.store.db, record.id, plan, seen.value)
        else
          && r.Err? && OnlyRow(old(session.store.db), session.store.db, record.id)
          && session.store.db.ops[record.id].status.NeedsReconciliation?
      ensures session.calm && old(session.store.db.ops[record.id]) == record
              && plan.bindingId in old(session.store.db.bindings) ==>
        var id := old(session.store.db.bindings)[plan.bindingId].target;
        var seen := Seen(old(session.client.Coming(0)), session.inst.account, id);
        && (r == Err(Failure("update_still_uncertain")) <==>
              seen.Some? && ShowsBaseline(old(session.store.db), plan.bindingId, seen.value))
        && (r == Err(Failure("update_still_uncertain")) ==>
              OnlyRow(old(session.store.db), session.store.db, record.id)
              && session.store.db.ops[record.id].status.NeedsReconciliation?)
    {
      hide IsRun, SentBy, Grows, Steady, Transition, Knows, Updated, Seen, Recognised;
      ghost var db := session.store.db;
      KnowsMeans(db, record, plan);
      var marked := MarkInterrupted(record, plan);
      if marked.Err? { return Err(marked.error); }
      ghost var ready := session.store.db;
      r := ReconcileUpdate(marked.value, plan, now);
      UpdatedThroughAny(db, ready, session.store.db, record.id, plan);
    }

    /** Recovers a create whose write may have been sent. It never writes, and touches
        nothing when no receipt was recorded. */
    method RecoverCreate(record: Operation, plan: Plan, bindingId: string, now: int)
      returns (r: Result<Operation, Failure>)
      requires session.Valid() && Knows(session.store.db, record, plan)
      requires record.kind == Create && record.status in {Applying, Verifying, NeedsReconciliation}
      modifies session, session.store, session.client
      ensures session.Valid() && old(session.history) <= session.history && (session.calm ==> old(session.calm))
      ensures session.client.posted == old(session.client.posted)
      ensures r.Ok? ==> r.value.status.Succeeded?
      ensures session.calm && old(session.store.db.ops[record.id]) == record ==>
        var seen := Seen(old(session.client.Coming(0)), session.inst.account, record.target);
        if HasReceipt(record) && record.target !in old(session.store.db).allow
           && seen.Some? && Recognised(session.inst, seen.value, record.id, plan, true, record.target) then
          bindingId != "" && bindingId !in old(session.store.db).bindings ==>
            && r.Ok? && record.id in session.store.db.ops && r.value == session.store.db.ops[record.id]
            && CreatedFrom(session.inst, old(session.store.db), session.store.db, record, plan, bindingId, seen.value)
        else
          && r.Err? && OnlyRow(old(session.store.db), session.store.db, record.id)
          && session.store.db.ops[record.id].status.NeedsReconciliation?
          && (!HasReceipt(record) ==> session.client.asked == old(session.client.asked))
    {
      hide IsRun, SentBy, Grows, Steady, Transition, Knows, Seen, MatchesPlanned, HasOperationMarker;
      ghost var db := session.store.db;
      KnowsMeans(db, record, plan);
      var marked := MarkInterrupted(record, plan);
      if marked.Err? { return Err(marked.error); }
      ghost var ready := session.store.db;
      r := ReconcileCreate(marked.value, plan, bindingId, now);
    }

    /** Resumes an operation that was certainly never sent. */
    method RecoverPrepared(record: Operation, plan: Plan, bindingId: string, now: int)
      returns (r: Result<Operation, Failure>)
      requires session.Valid() && Knows(session.store.db, record, plan)
      modifies session, session.store, session.client
      ensures session.Valid() && old(session.history) <= session.history && (session.calm ==> old(session.calm))
      ensures OneWrite(old(session.client.posted), session.client.posted, record.id, plan)
      ensures r.Ok? ==> r.value.status.Succeeded?
      ensures session.client.posted != old(session.client.posted) ==>
        PlanFault(session.inst, plan, now).None? && (plan.confirmationRequired ==> plan.confirmedAt.Some?)
      ensures session.calm && AsRead(old(session.store.db), record) && record.status.Prepared? ==>
        Resumed(session.inst, old(session.store.db), session.store.db, record, plan, bindingId, now, old(Ahead()),
                |session.client.posted| - |old(session.client.posted)|, r)
    {
      hide IsRun, SentBy, Grows, Steady, Transition, Knows, PlanFault, MatchesPlanned, Storage.GetBindingState, Tables,
        Schema, Content, ProtocolExchange.Exchange, AsRead, GivenUp, Installs, InstalledFrom, Unchanged, Answered,
        Shown;
      session.Facts();
      ResumeFacts(session.inst, session.store.db, record, plan);
      var fault := PlanFault(session.inst, plan, now);
      if fault.Some? {
        r := FailOperation(record.id, "stale_prepared_operation");
        return;
      }
      if plan.confirmationRequired && plan.confirmedAt.None? {
        r := FailOperation(record.id, "confirmation_required");
        return;
      }
      if plan.bindingId != "" {
        var state := session.GetBindingState(plan.bindingId);
        if state.Err? || state.value.binding.version != plan.version {
          r := FailOperation(record.id, "binding_version_changed");
          return;
        }
      }
      if record.kind == Create {
        r := ExecuteCreate(record, plan, bindingId, now);
      } else if plan.status.NoChange? {
        r := ExecuteNoChange(record, plan, now);
      } else {
        r := ExecuteUpdate(record, plan, now);
      }
    }

    /** Recovers one operation. An uncertain write is never sent again. */
    method Recover(principal: string, id: string, bindingId: string, now: int) returns (r: Result<Operation, Failure>)
      requires session.Valid()
      modifies session, session.store, session.client
      ensures session.Valid() && old(session.history) <= session.history && (session.calm ==> old(session.calm))
      ensures principal == "" || principal != session.inst.owner || id !in old(session.store.db).ops ==>
        r.Err? && session.store.db == old(session.store.db)
      ensures |session.client.posted| <= |old(session.client.posted)| + 1
      ensures id in old(session.store.db).ops && !old(session.store.db).ops[id].status.Prepared? ==>
        session.client.posted == old(session.client.posted)
      ensures id in old(session.store.db).ops && Terminal(old(session.store.db).ops[id].status) ==>
        session.store.db == old(session.store.db) && session.client.asked == old(session.client.asked)
      ensures r.Ok? ==> Terminal(r.value.status)
      ensures !old(Identified()) ==>
        session.store.db == old(session.store.db) && session.client.posted == old(session.client.posted)
        && session.client.asked == old(session.client.asked)
      ensures session.calm && principal == session.inst.owner != "" && id in old(session.store.db).ops
              && old(Identified()) ==>
        Recovered(session.inst, old(session.store.db), session.store.db, id, bindingId, now, old(Ahead()),
                  |session.client.posted| - |old(session.client.posted)|, r)
    {
      hide IsRun, SentBy, Grows, Steady, Transition, Knows, MatchesPlanned, Tables, Schema, Content,
        ProtocolExchange.Exchange, Updated, Created, CreatedFrom, Seen, Recognised, Resumed, ShowsBaseline, PlanFault;
      ghost var db, was := session.store.db, session.history;
      if principal == "" || principal != session.inst.owner { return Err(Failure("unauthorized_owner")); }
      if id !in session.store.db.ops { return Err(Stored(NotFound)); }
      var record := session.store.db.ops[id];
      session.Facts();
      KnowsNow(session.inst, db, id);
      if Terminal(record.status) { return Ok(record); }
      var identified := session.VerifyDownstream();
      if !identified { return Err(Failure("target_identity_mismatch")); }
      var crashed := session.Elapse();
      if crashed { return Err(Crashed); }
      session.GrownSince(was);
      KnowsBoth(db, session.store.db, record);
      var plan := session.store.db.plans[record.planId];
      KnownKinds(session.inst, db, id);
      if record.status.Prepared? {
        r := RecoverPrepared(record, plan, bindingId, now);
      } else if record.kind == Create {
        r := RecoverCreate(record, plan, bindingId, now);
      } else {
        r := RecoverUpdate(record, plan, now);
      }
    }

    // ----- applying -----

    method ApplyCreate(plan: Plan, operationId: string, bindingId: string, now: int)
      returns (r: Result<Operation, Failure>)
      requires session.Valid() && KnowsPlan(session.store.db, plan) && Applicable(plan.status)
      requires plan.source in session.store.db.sources
      modifies session, session.store, session.client
      ensures session.Valid() && old(session.history) <= session.history && (session.calm ==> old(session.calm))
      ensures Wrote(old(session.client.posted), session.client.posted, plan)
      ensures session.calm ==>
        CreateApplies(session.inst, old(session.store.db), session.store.db, plan, operationId, bindingId, now,
                      old(Ahead()), |session.client.posted| - |old(session.client.posted)|, r)
    {
      hide IsRun, SentBy, Grows, Steady, Knows, KnowsPlan, KnowsSource, Storage.PrepareCreate, Enabled, DbAfter,
        MatchesPlanned, Installs, InstalledFrom, AsRead;
      ghost var db, was := session.store.db, session.history;
      var source := session.store.db.sources[plan.source];
      SourceHere(db, plan.source);
      var crashed := session.Elapse();
      if crashed { return Err(Crashed); }
      session.GrownSince(was);
      PlanStillKnown(db, session.store.db, plan);
      SourceStillKnown(db, session.store.db, plan.source, source);
      PrepareCreateStep(session.inst, session.Here(), session.me, plan, source, operationId, now);
      PreparedCreateIs(session.inst, session.store.db, plan, source, operationId, now);
      var prepared := session.PrepareCreate(CreateRequest(session.inst, plan, source, operationId), now,
                                            Action.PrepareCreate(plan.id, operationId, now));
      if prepared.Err? { return Err(Stored(prepared.error)); }
      var record, created := prepared.value.0, prepared.value.1;
      if !created || !record.status.Prepared? { return Ok(record); }
      r := ExecuteCreate(record, plan, bindingId, now);
    }

    method ApplyUpdate(plan: Plan, operationId: string, now: int) returns (r: Result<Operation, Failure>)
      requires session.Valid() && KnowsPlan(session.store.db, plan) && Applicable(plan.status) && plan.bindingId != ""
      modifies session, session.store, session.client
      ensures session.Valid() && old(session.history) <= session.history && (session.calm ==> old(session.calm))
      ensures Wrote(old(session.client.posted), session.client.posted, plan)
      ensures session.calm && CurrentVersion(session.inst, old(session.store.db), plan) ==>
        UpdateApplies(session.inst, old(session.store.db), session.store.db, plan, operationId, now, old(Ahead()),
                      |session.client.posted| - |old(session.client.posted)|, r)
    {
      hide IsRun, SentBy, Grows, Steady, Knows, KnowsPlan, PrepareBinding, Enabled, DbAfter, MatchesPlanned,
        Storage.GetBindingState, Answered, Shown, Unchanged, AsRead;
      ghost var db, was := session.store.db, session.history;
      var state := session.GetBindingState(plan.bindingId);
      if state.Err? { return Err(Stored(state.error)); }
      if state.value.binding.version != plan.version { return Err(Failure("binding_version_changed")); }
      var crashed := session.Elapse();
      if crashed { return Err(Crashed); }
      session.GrownSince(was);
      PlanStillKnown(db, session.store.db, plan);
      PrepareUpdateStep(session.inst, session.Here(), session.me, plan, operationId, now);
      PreparedUpdateIs(session.inst, session.store.db, plan, operationId, now);
      var prepared := session.PrepareUpdate(UpdateRequest(session.inst, plan, operationId), now,
                                            Action.PrepareUpdate(plan.id, operationId, now));
      if prepared.Err? { return Err(Stored(prepared.error)); }
      var record, created := prepared.value.0, prepared.value.1;
      if !created || !record.status.Prepared? { return Ok(record); }
      if plan.status.NoChange? {
        r := ExecuteNoChange(record, plan, now);
      } else {
        r := ExecuteUpdate(record, plan, now);
      }
    }

    /** Confirms a plan that needs it. */
    method ConfirmIfNeeded(plan: Plan, confirmed: bool, now: int) returns (r: Result<Plan, Failure>)
      requires session.Valid() && KnowsPlan(session.store.db, plan)
      modifies session, session.store
      ensures session.Valid() && old(session.history) <= session.history && (session.calm ==> old(session.calm))
      ensures r.Ok? ==>
        && KnowsPlan(session.store.db, r.value) && r.value == plan.(confirmedAt := r.value.confirmedAt)
        && (plan.confirmationRequired ==> r.value.confirmedAt.Some? && (plan.confirmedAt.Some? || confirmed))
      ensures plan.confirmationRequired && plan.confirmedAt.None? && !confirmed ==>
        r.Err? && session.store.db == old(session.store.db)
      ensures session.calm ==>
        && (r.Ok? <==> Readied(session.inst, old(session.store.db), plan, confirmed, now).result.Ok?)
        && (r.Ok? ==>
              Outcome(session.store.db, Ok(r.value))
                == Readied(session.inst, old(session.store.db), plan, confirmed, now))
    {
      hide IsRun, SentBy, Grows, Steady, KnowsPlan, Storage.ConfirmPlan;
      ghost var db, was := session.store.db, session.history;
      if !plan.confirmationRequired || plan.confirmedAt.Some? { return Ok(plan); }
      if !confirmed { return Err(Failure("confirmation_required")); }
      var crashed := session.Elapse();
      if crashed { return Err(Crashed); }
      session.GrownSince(was);
      PlanStillKnown(db, session.store.db, plan);
      ConfirmedIs(session.inst, session.store.db, plan, now);
      var stored := session.ConfirmPlan(plan.id, now);
      if stored.Err? { return Err(Stored(stored.error)); }
      r := Ok(stored.value);
    }

    /** Applies a stored plan. A request seen before is answered from the store, and
        nothing is written without the caller's confirmation. */
    method Apply(principal: string, planId: string, confirmed: bool, operationId: string, bindingId: string, now: int)
      returns (r: Result<Operation, Failure>)
      requires session.Valid()
      modifies session, session.store, session.client
      ensures session.Valid() && old(session.history) <= session.history && (session.calm ==> old(session.calm))
      ensures principal == "" || principal != session.inst.owner || planId !in old(session.store.db).plans ==>
        r.Err? && session.store.db == old(session.store.db) && session.client.posted == old(session.client.posted)
      ensures planId in old(session.store.db).plans ==>
        Wrote(old(session.client.posted), session.client.posted, old(session.store.db).plans[planId])
      ensures planId in old(session.store.db).plans && session.client.posted != old(session.client.posted) ==>
        var p := old(session.store.db).plans[planId];
        && PlanFault(session.inst, p, now).None?
        && (p.confirmationRequired ==> p.confirmedAt.Some? || confirmed)
        && !Replayed(old(session.store.db), p)
      ensures !old(Identified()) ==>
        session.client.posted == old(session.client.posted) && session.client.asked == old(session.client.asked)
      ensures planId in old(session.store.db).plans
              && Replayed(old(session.store.db), old(session.store.db).plans[planId]) ==>
        && session.store.db == old(session.store.db) && session.client.asked == old(session.client.asked)
        && (r.Ok? ==>
              r.value.payload == PayloadFor(old(session.store.db).plans[planId]) && r.value.id in session.store.db.ops)
      ensures session.calm && principal == session.inst.owner != "" && old(Identified())
              && planId in old(session.store.db).plans
              && !Replayed(old(session.store.db), old(session.store.db).plans[planId])
              && PlanFault(session.inst, old(session.store.db).plans[planId], now).None? ==>
        var ready := Readied(session.inst, old(session.store.db), old(session.store.db).plans[planId], confirmed, now);
        ready.result.Ok? ==>
          Applies(session.inst, ready.db, session.store.db, ready.result.value, operationId, bindingId, now,
                  old(Ahead()), |session.client.posted| - |old(session.client.posted)|, r)
    {
      hide IsRun, SentBy, Grows, Steady, KnowsPlan, Knows, MatchesPlanned, Tables, Schema, Content,
        ProtocolExchange.Exchange, PlanFault, Readied, CreateApplies, UpdateApplies;
      ghost var db, was := session.store.db, session.history;
      if principal == "" || principal != session.inst.owner { return Err(Failure("unauthorized_owner")); }
      if planId !in session.store.db.plans { return Err(Stored(NotFound)); }
      var plan := session.store.db.plans[planId];
      OwnershipFirst(session.inst, plan, now);
      var fault := OwnershipFault(session.inst, plan);
      if fault.Some? { return Err(Failure(fault.value)); }
      session.Facts();
      PlanRead(session.inst, db, planId);
      var source := session.store.db.sources[plan.source];
      var existing := session.FindByKey(KeyFor(plan, source));
      if existing.Some? {
        if existing.value.payload != PayloadFor(plan) { return Err(Stored(IdempotencyConflict)); }
        FoundRow(session.inst, db, KeyFor(plan, source));
        return Ok(existing.value);
      }
      fault := PlanFault(session.inst, plan, now);
      if fault.Some? { return Err(Failure(fault.value)); }
      FaultlessIsApplicable(session.inst, plan, now);
      var ready := ConfirmIfNeeded(plan, confirmed, now);
      if ready.Err? { return Err(ready.error); }
      var identified := session.VerifyDownstream();
      if !identified { return Err(Failure("target_identity_mismatch")); }
      session.GrownSince(was);
      SourceHere(db, plan.source);
      SourceStillKnown(db, session.store.db, plan.source, source);
      if plan.bindingId == "" {
        r := ApplyCreate(ready.value, operationId, bindingId, now);
      } else {
        r := ApplyUpdate(ready.value, operationId, now);
      }
      SamePlan(plan, ready.value, old(session.client.posted), session.client.posted);
    }

    // ----- previewing -----

    /** Stores a source and the plan made from it. */
    method Persist(snapshot: SourceSnapshot, plan: Plan, ghost c: Context, ghost o: string, ghost policy: TitlePolicy,
                   ghost actual: Snapshot)
      returns (r: Result<Plan, Failure>)
      requires session.Valid() && c.ownerId == session.inst.owner
      requires if plan.bindingId == "" then BuildOk(snapshot, EMPTY_CHAT) && plan == CreatePlan(c, snapshot)
               else FromBaseline(session.store.db, c, snapshot, o, policy, actual, plan)
                    && o in session.store.db.baselines && session.store.db.baselines[o].bindingId == plan.bindingId
                    && KnowsTarget(session.store.db, plan.bindingId, actual.chatId)
      modifies session, session.store
      ensures session.Valid() && old(session.history) <= session.history && (session.calm ==> old(session.calm))
      ensures r.Ok? ==> r.value == plan && KnowsPlan(session.store.db, plan)
      ensures session.calm && FreePlanId(old(session.store.db), plan.id)
              && (plan.previous.Some? ==> plan.previous.value in old(session.store.db).sources) ==>
        r.Ok?
    {
      hide IsRun, SentBy, Grows, Steady, KnowsPlan, KnowsTarget, BuildOk, CreatePlan, UpdatePlan, UpdateStatus, Decoded,
        Enabled, DbAfter, SavePlan, Storage.PutSource, FromBaseline;
      ghost var db, was := session.store.db, session.history;
      var crashed := session.Elapse();
      if crashed { return Err(Crashed); }
      session.PutSource(snapshot);
      crashed := session.Elapse();
      if crashed { return Err(Crashed); }
      session.GrownSince(was);
      PlanShape(c, snapshot, db, o, policy, actual, plan);
      SavedIsKnown(session.inst, session.store.db, plan);
      if session.calm && FreePlanId(db, plan.id) && (plan.previous.Some? ==> plan.previous.value in db.sources) {
        SavesFine(session.inst, db, session.store.db, snapshot, plan);
      }
      ghost var a := PlanningStep(session.inst, session.Here(), session.me, db, c, snapshot, o, policy, actual, plan);
      var saved := session.SavePlan(plan, a);
      if saved.Err? { return Err(Stored(saved.error)); }
      r := Ok(plan);
    }

    /** Plans a new chat. */
    method PreviewCreate(snapshot: SourceSnapshot, planId: string, now: int) returns (r: Result<Plan, Failure>)
      requires session.Valid()
      modifies session, session.store
      ensures session.Valid() && old(session.history) <= session.history && (session.calm ==> old(session.calm))
      ensures r.Ok? ==> KnowsPlan(session.store.db, r.value)
      ensures r.Ok? ==>
        BuildOk(snapshot, EMPTY_CHAT)
        && r.value == CreatePlan(Context(planId, session.inst.owner, now, ttl, stableIds), snapshot)
      ensures session.calm && FreePlanId(old(session.store.db), planId) && Diff.ValidSource(snapshot.messages)
              && BuildOk(snapshot, EMPTY_CHAT) ==>
        r.Ok?
    {
      hide IsRun, SentBy, KnowsPlan, BuildOk, Built;
      var verdict := Diff.Preview(None, snapshot, None, None, FollowSource, false);
      if verdict.Err? { return Err(Failure("invalid_preview_input")); }
      var desired := BuildSnapshot(snapshot, None);
      if desired.Err? { return Err(Failure("build_target_snapshot")); }
      var status := if verdict.value.status.NeedsBindingConfirmation? then Ready else verdict.value.status;
      var plan := Plan(planId, session.inst.owner, status, "", 0, snapshot.Business(), None, None, None, None,
                       DesiredOf(desired.value), snapshot.parserVersion, POLICY_VERSION, now + ttl, true, None);
      ghost var any: Snapshot := desired.value;
      r := Persist(snapshot, plan, Context(planId, session.inst.owner, now, ttl, stableIds), "", FollowSource, any);
    }

    /** Plans an update of a managed chat from its last verified state and one read. */
    method PreviewUpdate(snapshot: SourceSnapshot, bindingId: string, planId: string, now: int)
      returns (r: Result<Plan, Failure>)
      requires session.Valid() && bindingId != ""
      modifies session, session.store, session.client
      ensures session.Valid() && old(session.history) <= session.history && (session.calm ==> old(session.calm))
      ensures session.client.posted == old(session.client.posted)
      ensures r.Ok? ==> KnowsPlan(session.store.db, r.value)
      ensures r.Ok? ==>
        PlansUpdate(session.inst, old(session.store.db), Context(planId, session.inst.owner, now, ttl, stableIds),
                    snapshot, bindingId, old(session.client.Coming(0)), r.value)
      ensures session.calm && FreePlanId(old(session.store.db), planId)
              && CanPlan(session.inst, old(session.store.db), Context(planId, session.inst.owner, now, ttl, stableIds),
                         snapshot, bindingId, old(session.client.Coming(0))) ==>
        r.Ok?
    {
      hide IsRun, SentBy, Grows, Steady, KnowsPlan, KnowsBinding, KnowsTarget, BuildOk, Built, Decoded, Tables, Schema,
        Content, ProtocolExchange.Exchange, Storage.GetBindingState, MayRead, Client.ReadOutcome, Client.PathOk,
        MatchesBaseline, FromBaseline, UpdatePlan, UpdateStatus;
      ghost var db, was := session.store.db, session.history;
      ghost var c := Context(planId, session.inst.owner, now, ttl, stableIds);
      var loaded := session.GetBindingState(bindingId);
      if loaded.Err? { return Err(Stored(loaded.error)); }
      var state := loaded.value;
      session.Facts();
      StateIs(session.inst, db, bindingId);
      var crashed := session.Elapse();
      if crashed { return Err(Crashed); }
      session.GrownSince(was);
      BindingStillKnown(db, session.store.db, bindingId, state.binding);
      ManagedMayBeRead(session.store.db, bindingId, state.binding);
      var actual := session.Read(state.binding.target);
      if actual.None? { return Err(Failure("target_unavailable")); }
      var plan := PlanUpdate(snapshot, state, actual.value, planId, now);
      if plan.Err? { return Err(plan.error); }
      PlannedFrom(db, c, snapshot, state, actual.value, plan.value);
      FromBaselineKept(db, session.store.db, c, snapshot, state.baseline.operationId, state.binding.titlePolicy,
                       actual.value, plan.value);
      GrowsAt(db, session.store.db, state.baseline.operationId);
      BindingIsTarget(session.store.db, bindingId, state.binding);
      r := Persist(snapshot, plan.value, c, state.baseline.operationId, state.binding.titlePolicy, actual.value);
    }

    /** The verdict on an update and the document it intends. */
    method PlanUpdate(snapshot: SourceSnapshot, state: BindingState, actual: Snapshot, planId: string, now: int)
      returns (r: Result<Plan, Failure>)
      ensures r.Ok? ==>
        var c := Context(planId, session.inst.owner, now, ttl, stableIds);
        && (Applicable(UpdateStatus(c, snapshot, state.source, state.baseline, state.binding.titlePolicy, actual)) ==>
              BuildOk(snapshot, actual.chat))
        && r.value == UpdatePlan(c, state.id, snapshot, state.source, state.baseline, state.binding.titlePolicy, actual)
           .(version := state.binding.version)
      ensures r.Ok? <==> Plannable(Context(planId, session.inst.owner, now, ttl, stableIds), snapshot, state, actual)
    {
      hide BuildOk, Built, Diff.VerdictOf;
      var stable := stableIds || VerifiedSameSource(state.source.identity, snapshot.identity);
      var verdict := Diff.Preview(Some(state.source), snapshot, Some(state.baseline.target), Some(actual.normalized),
                                  state.binding.titlePolicy, stable);
      if verdict.Err? { return Err(Failure("invalid_preview_input")); }
      var status := verdict.value.status;
      if !MatchesBaseline(actual, state.baseline) { status := Conflict; }
      var desired := actual;
      VerdictIsPlain(state.source, snapshot, Some((state.baseline.target, actual.normalized)),
                     state.binding.titlePolicy, stable);
      if status.Ready? || status.NoChange? {
        var built := BuildSnapshot(snapshot, Some(actual));
        if built.Err? { return Err(Failure("build_target_update")); }
        desired := built.value;
      }
      r := Ok(Plan(planId, session.inst.owner, status, state.id, state.binding.version, snapshot.Business(),
                   Some(state.source.Business()), Some(actual.normalized), Some(actual.normalized),
                   Some(actual.conflict), DesiredOf(desired), snapshot.parserVersion, POLICY_VERSION, now + ttl, true,
                   None));
    }

    /** Stores a source and a plan for it. Nothing is written to the target. */
    method Preview(principal: string, snapshot: SourceSnapshot, bindingId: string, planId: string, now: int)
      returns (r: Result<Plan, Failure>)
      requires session.Valid()
      modifies session, session.store, session.client
      ensures session.Valid() && old(session.history) <= session.history && (session.calm ==> old(session.calm))
      ensures session.client.posted == old(session.client.posted)
      ensures principal == "" || principal != session.inst.owner || !old(Identified()) ==>
        r.Err? && session.store.db == old(session.store.db) && session.client.asked == old(session.client.asked)
      ensures r.Ok? ==>
        && KnowsPlan(session.store.db, r.value) && snapshot.parserVersion == PARSER_VERSION
        && snapshot.sourceType == SOURCE_TYPE
        && var c := Context(planId, session.inst.owner, now, ttl, stableIds);
        if bindingId == "" then BuildOk(snapshot, EMPTY_CHAT) && r.value == CreatePlan(c, snapshot)
        else PlansUpdate(session.inst, old(session.store.db), c, snapshot, bindingId, old(session.client.Coming(0)),
                         r.value)
      ensures session.calm && principal == session.inst.owner != "" && old(Identified())
              && FreePlanId(old(session.store.db), planId)
              && snapshot.parserVersion == PARSER_VERSION && snapshot.sourceType == SOURCE_TYPE
              && (if bindingId == "" then Diff.ValidSource(snapshot.messages) && BuildOk(snapshot, EMPTY_CHAT)
                  else CanPlan(session.inst, old(session.store.db),
                               Context(planId, session.inst.owner, now, ttl, stableIds), snapshot, bindingId,
                               old(session.client.Coming(0)))) ==>
        r.Ok?
    {
      hide IsRun, SentBy, KnowsPlan, BuildOk, Built, PlansUpdate, CreatePlan, CanPlan;
      if principal == "" || principal != session.inst.owner { return Err(Failure("unauthorized_owner")); }
      var identified := session.VerifyDownstream();
      if !identified { return Err(Failure("target_identity_mismatch")); }
      if snapshot.parserVersion != PARSER_VERSION || snapshot.sourceType != SOURCE_TYPE {
        return Err(Failure("invalid_source_snapshot"));
      }
      if bindingId == "" {
        r := PreviewCreate(snapshot, planId, now);
      } else {
        r := PreviewUpdate(snapshot, bindingId, planId, now);
      }
    }
  }
}
