/** Transport- and storage-independent records. A hash is modelled by the
    canonical value it is computed from, so equal hashes mean equal content. */
module Domain {
  import opened Basics

  const PARSER_VERSION := "chatgpt-share-ref-v2"
  const POLICY_VERSION := "preview-policy-v2"
  const SOURCE_TYPE := "chatgpt_share"

  datatype Message = Message(
    id: string, nodeId: string, role: string, channel: string, parts: seq<string>,
    parentNodeId: string, childNodeIds: seq<string>, order: int, createdAt: Option<int>)

  datatype Evidence = Unknown | Candidate | Verified

  datatype Identity = Identity(candidateId: string, evidence: Evidence)

  datatype UnsupportedItem = UnsupportedItem(nodeId: string, kind: string)

  datatype Coverage = Coverage(
    partial: bool, selected: nat, internal: nat, nonMessage: nat,
    unsupported: seq<UnsupportedItem>, diagnostics: seq<string>)

  datatype SourceSnapshot = SourceSnapshot(
    sourceType: string, identity: Identity, shareId: string, title: string,
    messages: seq<Message>, currentNodeId: string, createdAt: Option<int>, fetchedAt: int,
    parserVersion: string, coverage: Coverage)
  {
    /** The business hash: fetch time, diagnostics and exclusion counters do not
        take part in it. */
    function Business(): SourceSnapshot {
      this.(fetchedAt := 0,
            coverage := coverage.(internal := 0, nonMessage := 0, diagnostics := []))
    }
  }

  datatype TargetMessage = TargetMessage(
    id: string, sourceId: string, role: string, channel: string, parts: seq<string>,
    managed: bool, order: int)

  datatype TargetSnapshot = TargetSnapshot(
    title: string, messages: seq<TargetMessage>, current: string)

  datatype TitlePolicy = FollowSource | TargetOverride

  datatype Status = Prepared | Applying | Verifying | Succeeded | Failed | NeedsReconciliation

  predicate Unresolved(s: Status) {
    s.Prepared? || s.Applying? || s.Verifying? || s.NeedsReconciliation?
  }

  datatype PlanStatus = Ready | NoChange | Conflict | UnsupportedContent | NeedsBindingConfirmation
}
