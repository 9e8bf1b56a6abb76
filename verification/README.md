# GPT–Open WebUI bridge: a verified model

The bridge copies a public ChatGPT share page into one chat of an Open WebUI
installation, and later brings that chat up to date. This project models its logic in
Dafny and proves what it promises. `dafny verify dfyconfig.toml` checks everything.

There are four parts, from the network inwards.

* **Share pages.** A page carries a table of values that refer to each other by index.
  `RefTable`, `RefDecoder` and `RefEncoder` model the memoised, colour-marked decoder of
  that table; `ShareParser` and `ShareSnapshot` the walk up the parent chain and the
  filter that picks the messages.
* **Chat documents.** `ChatGraph` says what a readable chat document is, `Normalize`
  is the reader with its depth-first walk, `Snapshots` holds the conflict hash and the
  strict comparison, `Builder` writes a conversation into a document, and `Relinking` and
  `BuildTheorems` say when that works, what it leaves alone and what it reads back as.
  A document is its known members plus a map of unknown ones at each level.
* **The three-way comparison.** `Diff` computes what changed between the last source, the
  new source, the last verified target and the target as read now; `DiffTheorems` says
  what its verdicts mean.
* **The protocol.** `Storage` has the tables and, as functions of the whole database, the
  transactions; `Store` is the connection whose methods carry them out. `Plans` is what
  previews store. `Protocol` is a transition system: each transaction and each request
  is one step, any number of callers take steps in any order, replies may be lost,
  late or wrong, and a crash between any two steps reopens the database. `ProtocolInv`,
  `ProtocolSteps`, `ProtocolFinish`, `ProtocolContent`, `ProtocolExchange` and
  `ProtocolRuns` prove an invariant for every run, `ProtocolTheorems` and
  `ProtocolRecovery` draw the guarantees from it. `Client`, `Session` and `Service` are
  the imperative side: the service's methods over a store connection and a client, each
  of which only takes steps of the protocol, so that the guarantees are theirs.
  `Failures` says when a failed operation is certainly never sent, and `Examples` and
  `ExampleRuns` hold the documents and runs that show where a property fails.

How to read the protocol part:

* A hash stands for the canonical value it is computed from, so equal hashes mean equal
  content. A digest used as an idempotency key or message id stands for what it digests.
* Fresh ids and the time are parameters. Two callers may be given the same id; the
  uniqueness constraints then decide.
* The state does not contain the target's documents. Every read may show anything, and
  every write's reply may be anything, so writes that are lost, stored late, stored twice
  or overwritten by a user are all included.
* `Session.Session.Pause` stands for whatever other callers and crashes do between two
  steps. Its contract allows any run extension; its body lets nothing happen. Methods
  rely on the contract only. `calm` records that nothing happened; contracts that say what
  one undisturbed call achieves are conditional on it.
* What the next requests are answered with is part of the client's state (`Coming`).

Findings where an expected property does not hold, or holds only in part:

* An operation marked failed may still have its write under way: whoever holds the right
  to send keeps it (`Failures.FailThenSend`), and `ExampleRuns.FailedThenSent` is a run in
  which a create is marked failed by one caller and sent by another afterwards. A failure is
  final exactly when nobody holds that right and nothing was sent
  (`Failures.FailureIsFinalIff`); a caller can tell from the stored row when the number of
  attempts is zero, which says that nobody ever held it (`Failures.NeverStartedIff`). A call
  left alone fails a sent operation only when its write was refused outright
  (`Service.Service.WriteCreate`, `WriteUpdate`).
* A written update is recognised afterwards exactly when the marker of the document it
  was built on has nothing the bridge does not write itself
  (`Snapshots.WriteIsRecognised`). The readback of a create accepts any marker member the
  target adds, so one added member hides every later edit
  (`Examples.MarkerMemberHidesUpdate`, with a document in
  `Examples.RetitlingIsNotRecognised`).
* A verified create is installed unless its chat already belongs to a binding
  (`ProtocolRecovery.FinalizeSucceeds`). The target brings that about by naming one chat in
  its replies to two creates: `ExampleRuns.ChatNamedTwice` is such a run.

## Model

| member | source | states |
|---|---|---|
| RefDecoder.Decoder.Decode | internal/source/chatgpt/parser.go:196-261 | A decoded index has exactly the value its finite unfolding has; every unfolding within the remaining depth is found; a cycle error comes with a walk that closes one; entries being decoded are the current path, and no entry is opened twice |
| RefDecoder.DecodeTable | internal/source/chatgpt/parser.go:192-261 | From a fresh decoder: success gives the unbounded unfolding, every value within the depth limit is found, cycles are reported only where one is reachable, each index is expanded at most once |
| RefTable.NoCycle | internal/source/chatgpt/parser.go:207-215 | Nothing that has an unfolding lies on a reference cycle, so a cycle error never hides a value |
| RefEncoder.RoundTrip | internal/source/chatgpt/parser_test.go:360-403 | Every nested map, list, string or scalar within the depth limit comes back from the table a slot-reserving encoder lays out |
| ShareParser.Ancestry | internal/source/chatgpt/parser.go:564-603 | The walk finds the parent chain from a root to the current node exactly when there is one within the depth limit |
| ShareParser.ReverseInPlace | internal/source/chatgpt/parser.go:599-601 | The collected nodes are reversed in place |
| ShareParser.ChainUnique | internal/source/chatgpt/parser.go:564-603 | There is at most one parent chain ending in a node |
| ShareParser.ChainDistinct | internal/source/chatgpt/parser.go:567-573 | A parent chain never visits a node twice, so the repeat check and the depth limit reject no chain of allowed length |
| ShareSnapshot.BuildSnapshot | internal/source/chatgpt/parser.go:275-549 | A conversation is accepted exactly when mapping, linear list, chain, child lists, limits and texts are in order and a message is selected; the result is the filtered path |
| ShareSnapshot.ScanPath | internal/source/chatgpt/parser.go:362-501 | The loop over the linear conversation computes the fold that classifies one node after the other |
| ShareSnapshot.ScanConserves | internal/source/chatgpt/parser.go:362-501 | Selected, internal, non-message and unsupported nodes add up to the path; the messages are its visible nodes in order, numbered from zero and linked as a chain with distinct ids |
| ShareSnapshot.AcceptedPath | internal/source/chatgpt/parser.go:305-549 | An accepted linear conversation is the one parent chain to the current node, without repeats, and every node of it is accounted for once |
| ShareSnapshot.IgnoredNodesDoNotMatter | internal/source/chatgpt/parser.go:365-500 | Non-message, internal, hidden, tool-addressed and auxiliary nodes anywhere on the path change neither messages nor unsupported items nor which error occurs |
| ShareSnapshot.IgnoredNodesKeepHash | internal/domain/types.go:91-109 | Two conversations that differ on their paths only in ignored nodes have the same business hash |
| ChatGraph.OrderIsPreorder | internal/owu/snapshot.go:406-457 | A valid history is one rooted tree whose order is a duplicate-free preorder of all messages, parents first |
| ChatGraph.PathUnique | internal/owu/snapshot.go:459-468 | There is one path from the root to the current message |
| Normalize.Walk.Visit | internal/owu/snapshot.go:430-457 | After the reciprocity checks the depth-first walk never takes an early exit: it enters each message below its start once and appends exactly their preorder |
| Normalize.ActiveBranch | internal/owu/snapshot.go:459-468 | Climbing from the current message of a valid history never repeats a message; the result is the path from the root to it |
| Normalize.NormalizeChat | internal/owu/snapshot.go:345-509 | Accepts a document exactly when its messages parse, link reciprocally into one rooted tree and its view repeats the active path; returns its projection in preorder; neither cycle error can occur |
| Snapshots.MatchForcesProjection | internal/owu/snapshot.go:60-77 | A strict match with a readable document forces a readable document with the same projection |
| Snapshots.ReadingIgnoresReceipt | internal/owu/snapshot.go:560-587 | The server id and the receipt marker have no influence on how a document reads |
| Snapshots.WriteIsRecognised | internal/owu/snapshot.go:263-303 | A stored write carries its operation's marker, and matches the document it was made from exactly when an update's marker has nothing the bridge does not write |
| Examples.MarkerMemberHidesUpdate | internal/owu/snapshot.go:560-587 | For every usable source and edit: a create is accepted whatever members the target adds to the marker, the edit can be built on what is stored, and the edit's own write is accepted exactly when none was added |
| Examples.RetitlingIsNotRecognised | internal/owu/snapshot.go:560-587 | A document of one message with one added marker member on which a new title is written but not recognised |
| Builder.CheckSource | internal/owu/snapshot.go:93-115 | The source check passes exactly when the sorted messages are complete, have known roles and distinct ids, nodes and orders |
| Builder.SortByOrder | internal/owu/snapshot.go:93-94 | The result has the same messages in ascending order, those of equal order in the sequence they had |
| Builder.IndexManaged | internal/owu/snapshot.go:145-158 | The index of managed messages exists exactly when no source message is claimed twice, and names the claiming message |
| Builder.ChooseIds | internal/owu/snapshot.go:160-167 | Each source message gets the id of the message that already stands for it, or its deterministic id |
| Builder.WriteChain | internal/owu/snapshot.go:172-218 | Writing message by message gives the map overwritten at all chain ids at once |
| Builder.BuildSnapshot | internal/owu/snapshot.go:82-247 | Building succeeds exactly when source and base are usable, ids do not collide and the new document is readable; the result keeps identity, flags and envelope of the base |
| BuildTheorems.BuildSucceedsIff | internal/owu/snapshot.go:145-229 | Updating a readable document succeeds exactly when the chain messages already present are non-empty and closed under parents and the last chain message has no child outside the chain |
| BuildTheorems.BuildPreserves | internal/owu/snapshot.go:176-229 | Messages outside the chain are unchanged, and no unknown member of chat, history or any message is lost |
| BuildTheorems.BuildKeepsForeignChildren | internal/owu/snapshot.go:630-637 | Every message keeps its children outside the chain, in their order |
| BuildTheorems.BuildMirrors | internal/owu/snapshot.go:176-247 | If the document held nothing but chain messages, it reads back as the source: all managed, exactly one for each message, in strictly ascending source order, last one current |
| BuildTheorems.CreateRoundTrip | internal/owu/snapshot.go:93-247 | Building a new chat succeeds for every usable source and reads back as exactly its messages, in strictly ascending source order, with ids, roles, channels and part boundaries |
| BuildTheorems.FreshIdsDiffer | internal/owu/snapshot.go:617-628 | Deterministic ids of different source messages differ |
| Relinking.AttachableIsValid | internal/owu/snapshot.go:176-229 | Placing a chain that can be attached into a history gives one valid tree |
| Relinking.ValidIsAttachable | internal/owu/snapshot.go:176-229 | A history that is still one tree after placing a chain was one the chain could be attached to |
| Diff.Preview | internal/diff/preview.go:23-175 | Fails exactly on malformed inputs or a baseline without a target; otherwise the loops compute the specified report and status |
| Diff.CheckTarget | internal/diff/preview.go:191-226 | A target passes exactly when ids and source ids are present and distinct and orders ascend |
| Diff.CheckRelativeOrder | internal/diff/preview.go:325-342 | The position scan passes exactly when common messages keep their relative order |
| DiffTheorems.AppendOnlyIff | internal/diff/preview.go:117-172 | For numbered conversations the source side is free of conflicts exactly when the new one continues the old one and both come from the same place |
| DiffTheorems.ApplicableMeansAppendOnly | internal/diff/preview.go:117-172 | A ready or no-change verdict means the old ids are a prefix of the new ones, and patching the old transcript with the reported modifications and additions gives the new one |
| DiffTheorems.TargetAgreesIff | internal/diff/preview.go:228-274 | Comparing two valid targets reports nothing exactly when both list the same messages in the same sequence and each content is the baseline's or exactly the changed source's |
| Plans.CreatePlanMirrors | internal/syncer/service.go:105-130 | The document of a create plan is its source conversation |
| Plans.UpdatePlanMirrors | internal/syncer/service.go:133-196 | The document of an applicable update plan made from a baseline that was its source is the new source conversation |
| Plans.MirroredEditBuilds | internal/owu/snapshot.go:145-229 | An edit of a mirrored conversation that neither adds nor removes messages can always be built |
| Plans.RebuildMatchesPlan | internal/syncer/service.go:459-476 | Rebuilding an applicable plan from any later read with the expected conflict hash matches the plan, whatever clock-driven members changed |
| Plans.MatchedReadMirrors | internal/syncer/service.go:736-739 | A read that matches such a plan shows the plan's source |
| Store.PairsAreMap | internal/storage/bindings.go:426-450 | Checked mapping pairs form an injective map with exactly those pairs |
| Store.ValidateMappings | internal/storage/bindings.go:426-450 | The loop accepts exactly the complete, one-to-one pairs into known messages |
| Store.MappingsFromTarget | internal/storage/bindings.go:452-463 | Collects the managed pairs of a target in its order |
| Store.MoveRow | internal/storage/operations.go:380-430 | A status change is refused exactly for a forbidden move, a changed target or receipt, or a create verified without target; otherwise the row changes as patched and counts attempts |
| Store.Connection.PrepareCreate | internal/storage/operations.go:17-98 | The transaction as a whole: replays, checks, alias claim, lock and intent, all or nothing, keeping all uniqueness constraints |
| Store.Connection.PrepareBindingOperation | internal/storage/operations.go:100-177 | The same for updates, with trust, version and baseline checks |
| Store.Connection.TransitionOperation | internal/storage/operations.go:356-434 | One row moves or nothing changes; constraints are kept |
| Store.Connection.RecoverInterrupted | internal/storage/operations.go:451-508 | Exactly the applying and verifying rows become uncertain |
| Store.Connection.FinalizeVerifiedCreate | internal/storage/bindings.go:15-155 | All five tables change together, or none, keeping all uniqueness constraints |
| Store.Connection.CompleteVerifiedUpdate | internal/storage/bindings.go:157-265 | Binding, mappings, baseline and operation change together, or nothing does |
| Store.Connection.SavePlan | internal/storage/records.go:100-206 | Plans are inserted once and never changed |
| Store.Connection.ConfirmPlan | internal/storage/records.go:269-313 | Only the confirmation of an unexpired plan for the current version is recorded |
| Store.Connection.GetBindingState | internal/storage/bindings.go:273-295 | Returns the state of a trusted binding with the baseline of its current version |
| Store.SchemaPrepareCreate | internal/storage/migrations/001_initial.sql:40-69 | Keys, unresolved locks and source aliases stay unique when a create is prepared |
| Store.SchemaFinalize | internal/storage/migrations/001_initial.sql:71-121 | Bindings, allow-list, mappings and baselines keep their constraints when a create is installed |
| Store.SchemaComplete | internal/storage/migrations/001_initial.sql:102-121 | So they do when an update is completed |
| ProtocolInv.TablesKept | internal/storage/migrations/001_initial.sql:10-121 | Sound new and changed rows are all a step needs for the tables to stay consistent and to hold everything they held |
| ProtocolSteps.TransitionSound | internal/storage/operations.go:356-449 | Every status change the service asks for keeps the tables consistent |
| ProtocolSteps.CrashSound | internal/storage/store.go:138-141 | So does reopening after a crash |
| ProtocolFinish.FinalizeSound | internal/storage/bindings.go:66-155 | So does installing a verified create |
| ProtocolFinish.CompleteSound | internal/storage/bindings.go:192-251 | So does completing a verified update: no other unresolved update can wait on the binding |
| ProtocolContent.VerifiedMirrors | internal/syncer/service.go:388-396 | A read that carries the marker and matches the plan shows the plan's source |
| ProtocolContent.MirrorMapsOneToOne | internal/storage/bindings.go:426-463 | The managed pairs of a target that is its source always pass the mapping checks |
| ProtocolExchange.ExchangeKept | internal/storage/operations.go:402-410 | Steps that only change tables keep what is known about sent writes, receipts and reads |
| ProtocolRuns.StepKeepsInv | internal/syncer/service.go:268-627 | Every step of any caller, and every crash, keeps the whole invariant |
| ProtocolRuns.RunsKeepInv | internal/syncer/service.go:37-53 | The invariant holds in every reachable state |
| ProtocolTheorems.RunsOnlyGrow | internal/storage/operations.go:356-449 | Between two points of a run nothing stored is lost, bindings keep target and creator, versions never fall, settled operations never change |
| ProtocolTheorems.AtMostOneWrite | internal/syncer/service.go:350-356 | In every run each operation's write is sent at most once, at most one create is sent per source alias, and attempts never exceed one |
| ProtocolTheorems.WritesAreConfirmed | internal/syncer/service.go:232-251 | Every sent write belongs to a confirmed, applicable plan, goes to a chat this store created, and its body reads back as the plan's source |
| ProtocolTheorems.LocksMatchVersions | internal/storage/operations.go:147-192 | At most one unresolved operation waits on a binding, and its plan has the binding's current version |
| ProtocolTheorems.TrustLasts | internal/storage/bindings.go:352-379 | A binding once installed keeps its allow-list row, intent and succeeded create with the same target for ever, and loading it never fails |
| ProtocolTheorems.OnlyCreatedChats | internal/storage/operations.go:255-292 | Every chat ever read or updated was named in the reply to a create this store sent |
| ProtocolTheorems.StoredIsSource | internal/storage/bindings.go:221-251 | In every reachable state the baseline at a binding's current version is its last source conversation, message for message in strictly ascending source order, and the stored mappings are exactly its pairs, one-to-one |
| ProtocolTheorems.HistoryIsDense | internal/storage/bindings.go:66-137 | A binding at version v has exactly one baseline for each of 1..v and no other, each from a succeeded operation of its own |
| ProtocolTheorems.BaselineIsNoOtherWrite | internal/syncer/service.go:599-604 | In every reachable state a read that is a recorded baseline carries the marker of the operation that recorded it, and so of no operation that has not succeeded |
| Failures.NeverStartedIff | internal/storage/operations.go:406-408 | The number of attempts is zero exactly when in no state of the run anybody held the right to send the operation's write |
| Failures.FailureIsFinalIff | internal/syncer/service.go:608-617 | In every reachable state, for a failed operation: in no continuation is its write sent exactly when nobody holds the right to send it and it was not sent; without attempts this always holds |
| Failures.FailThenSend | internal/syncer/service.go:608-617 | While a caller holds the right to send, any caller may mark the operation failed, and afterwards the write can still be sent |
| ExampleRuns.FailedThenSent | internal/syncer/service.go:286-289 | A run from the empty store in which one caller starts a create, another marks it failed, and the first then sends it |
| ProtocolRecovery.CompleteSucceeds | internal/storage/bindings.go:192-220 | Completing a verified update never fails: no version, trust, mapping or slot check is in the way |
| ProtocolRecovery.FinalizeSucceeds | internal/storage/bindings.go:15-105 | Installing a verified create fails exactly when its chat already is in the allow-list |
| ExampleRuns.ChatNamedTwice | internal/storage/bindings.go:15-155 | A run in which two creates are answered with one chat id and the first is installed: the second is verified by a read that shows its own write, and no binding id lets it be installed |
| ProtocolRecovery.PayloadNeverChanges | internal/syncer/service.go:343-349 | In every reachable state rebuilding an operation's document, for an update on any read with the expected conflict hash, succeeds and matches the plan: the changed-payload branch is dead |
| ProtocolRecovery.LostCreateIsAbsorbing | internal/syncer/service.go:566-571 | A create of unknown outcome without a receipt never gets a target, a second attempt or success, whatever anyone does |
| Client.WriteOutcome | internal/owu/client.go:330-359 | A write counts as definitely refused exactly for a final status that is neither success nor ambiguous; a success carries a decoded snapshot with account, marker and, for updates, the right chat |
| Client.Connection.Create | internal/owu/client.go:207-230 | One request is sent, and its outcome is the specified one |
| Client.Connection.Update | internal/owu/client.go:254-281 | The same; a chat id that does not fit a path is refused before anything is sent |
| Client.Connection.Read | internal/owu/client.go:232-252 | A read gives a decoded snapshot of the requested chat and the configured account, or nothing |
| Client.Decode | internal/owu/snapshot.go:305-343 | Decodes exactly the responses with identity, a readable document and an agreeing title |
| Session.OthersSteady | internal/storage/operations.go:402-410 | Whatever other callers do, a caller keeps its right to send, what it read stays valid and its own writes are unchanged |
| Session.Session.Record | internal/syncer/service.go:37-53 | Store and client stay in step with the run: the caller's writes in the run are exactly those its client sent |
| Session.Session.Begin | internal/syncer/service.go:350-356 | The caller whose transition to applying succeeds, and no other, may send |
| Service.Service.Preview | internal/syncer/service.go:92-208 | Sends no write; an unknown caller or a wrong live identity changes and reads nothing; a returned plan is stored and is exactly the create plan, or the update plan of the binding's state as loaded and the one read; undisturbed, valid input is never refused |
| Service.Service.PreviewCreate | internal/syncer/service.go:105-131 | The stored plan is the create plan of the source; undisturbed, every well-formed source that can be built is planned |
| Service.Service.PreviewUpdate | internal/syncer/service.go:133-196 | The stored plan is the update plan of the binding's loaded state and what its chat showed; undisturbed, well-formed input with a buildable result is planned |
| Service.Service.Apply | internal/syncer/service.go:210-252 | At most one write, only for a faultless plan with the caller's or an earlier confirmation and a verified identity; a request seen before changes nothing and is answered from the store; undisturbed, a plan that can be prepared and is answered as it should be is carried out exactly |
| Service.Service.ExecuteCreate | internal/syncer/service.go:338-386 | At most one write, the planned one; undisturbed, exactly one is sent, a fitting answer and readback install exactly the named chat, and a sent operation ends failed only if the write was refused |
| Service.Service.ExecuteUpdate | internal/syncer/service.go:448-504 | The same for updates, after one reread that must still be the verified baseline: fitting answers record exactly the new version |
| Service.Service.ExecuteNoChange | internal/syncer/service.go:506-529 | Succeeds without any write; undisturbed, an unchanged read suffices |
| Service.Service.WriteCreate | internal/syncer/service.go:350-386 | Starts, sends at most once and settles by what is known: only a refusal fails a sent create, a fitting answer and readback install it |
| Service.Service.WriteUpdate | internal/syncer/service.go:477-504 | The same for updates |
| Service.Service.FinishCreate | internal/syncer/service.go:388-419 | Succeeds only on a read with the receipt's chat, the account, the marker and the planned document; undisturbed, such a read of a free chat installs exactly the binding, allow-list row, mappings and baseline, and any other leaves the operation waiting |
| Service.Service.FinishUpdate | internal/syncer/service.go:531-564 | Succeeds only on a read that shows the operation's own write; undisturbed, such a read advances exactly binding, mappings and baseline, and any other leaves the operation waiting |
| Service.Service.ReconcileCreate | internal/syncer/service.go:566-585 | Never writes; without a recorded receipt nothing is read or changed |
| Service.Service.ReconcileUpdate | internal/syncer/service.go:587-606 | Never writes; undisturbed, the update completes exactly when the read shows its write, is reported as still uncertain exactly when the read is the last verified baseline, and otherwise nothing changes |
| Service.Service.ReadUnchanged | internal/syncer/service.go:456-465 | Yields the read of an unsent update's chat only if it is the verified baseline with the planned conflict hash; any other fails the update |
| Service.Service.Rebuild | internal/syncer/service.go:466-476 | Yields the document built from the stored source exactly when it builds and matches the plan |
| Service.Service.Start | internal/syncer/service.go:477-482 | After success, and only then, this caller holds the one right to send; undisturbed, a prepared operation starts |
| Service.Service.ConfirmCreate | internal/syncer/service.go:369-386 | Records the receipt before the first read; undisturbed, the operation is not given up, and a readback that shows its write installs it |
| Service.Service.ConfirmUpdate | internal/syncer/service.go:493-503 | Records the answer before the readback; undisturbed, the operation is not given up, and a readback that shows its write completes it |
| Service.Service.RecoverPrepared | internal/syncer/service.go:286-308 | Sends only for a valid, confirmed plan; undisturbed, an operation whose plan no longer holds is failed without a write, and any other is carried out as by the execute methods: a create sends exactly one write, and fitting answers are recorded exactly |
| Service.Service.Recover | internal/syncer/service.go:268-322 | Sends nothing unless the operation was prepared, and touches nothing on a wrong live identity; undisturbed, a prepared operation is carried out or given up, and a possibly sent one is finished exactly when the chat it may read shows its own write; a read that is the last verified baseline never does, so then the update waits and its binding is unchanged |

## Left out

- JSON text, SHA-256 and random ids: documents are values, hashes the values they cover, ids parameters.
- HTTP, TLS, redirects, size limits and timeouts: a request has a reply or none.
- OAuth and MCP in `internal/connector`: token rotation happens in a library that is not part of this model.
- SQLite, file permissions, locking, migrations and corruption checks: transactions are atomic and the database has one opener.
- The target's documents: reads are arbitrary, so nothing is claimed about what the target ends up holding. It offers no compare-and-swap, and an update may overwrite a user's edit made between the reread and the write.
- Diagnostics of the parser, the sorting of its unsupported items, citation rewriting, timestamps and text sizes: the rewriting, times and sizes are parameters, diagnostics are dropped; they are not in the business hash.
- `validateChildren` beyond reciprocity: the source does not check that the mapping is a tree off the path, and neither does the model.
- The offline-simulation flag, next-action texts, the diff stored with a plan, and error wording: errors are codes.
- The business hash a caller may send along with a source: `Preview` recomputes it.
- Operations returned next to an error: methods return one or the other.
- Failing branches that repeat a check the client has already made on the same reply, and `validateBinding` after `GetBindingState`, which has compared the same columns.
- The archive kind: the store admits it, the service never prepares it.
- Partly decoded malformed message metadata, and null history messages: treated as unreadable.
- RefEncoder.RoundTrip: the encoder visits members in a given order, where a map's order is unspecified.
- Session.Session.Pause: one caller's view of the others; callers that share a process are not told apart from callers that do not.
