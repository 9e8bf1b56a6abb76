/** The Open WebUI client: which answers count as a result, which as a definite
    failure and which leave the outcome of a write unknown. */
module Client {
  import opened Basics
  import opened ChatGraph
  import opened Snapshots
  import opened Protocol
  import Normalize
  import Storage

  /** A chat response as far as it decodes; None where the chat member is missing. */
  datatype Response =
    | Garbled
    | Response(id: string, userId: string, title: string, chat: Option<Chat>, archived: bool, pinned: bool,
               folder: string, updatedAt: int, stable: map<string, Json>, volatile: map<string, Json>)

  /** What comes back for one request: nothing, or a status with a body that may have
      been cut short or be too large. */
  datatype Reply = Lost | Answer(status: int, body: Option<Response>)

  datatype WriteFault = OutcomeUnknown | Refused

  ghost function DecodeResponse(r: Response): (s: Option<Snapshot>)
    ensures s.Some? ==> Decoded(s.value) && r.Response? && s.value.chatId == r.id && s.value.ownerId == r.userId
  {
    if r.Garbled? || r.id == "" || r.userId == "" || r.chat.None? || !ValidChat(r.chat.value) then None
    else
      var n := Normalized(r.chat.value);
      if r.title != n.title then None
      else
        var e := Envelope(r.id, r.userId, r.archived, r.pinned, r.folder, r.stable, r.volatile);
        Some(Snapshot(r.id, r.userId, r.archived, r.pinned, r.folder, r.updatedAt, n, r.chat.value, Some(e),
                      HashRelevant(r.chat.value, n, Some(e), r.userId, r.archived, r.pinned, r.folder)))
  }

  method Decode(r: Response) returns (s: Option<Snapshot>)
    ensures s == DecodeResponse(r)
  {
    if r.Garbled? || r.id == "" || r.userId == "" || r.chat.None? { return None; }
    var normalized := Normalize.NormalizeChat(r.chat.value);
    if normalized.Err? || r.title != normalized.value.title { return None; }
    var n, e := normalized.value, Envelope(r.id, r.userId, r.archived, r.pinned, r.folder, r.stable, r.volatile);
    s := Some(Snapshot(r.id, r.userId, r.archived, r.pinned, r.folder, r.updatedAt, n, r.chat.value, Some(e),
                       HashRelevant(r.chat.value, n, Some(e), r.userId, r.archived, r.pinned, r.folder)));
  }

  predicate Success(status: int) {
    200 <= status < 300
  }

  /** Refusals that may arrive after the write was stored. */
  predicate Ambiguous(status: int) {
    status == 400 || status == 408 || status == 429 || status >= 500
  }

  /** A chat id that can be put into the request path. */
  predicate PathOk(id: string) {
    id != "" && forall c :: c in id ==> c !in "/?#\\\r\n"
  }

  /** What a write's reply says: only an unambiguous refusal rules the write out. */
  ghost function WriteOutcome(reply: Reply, account: string, op: string, create: bool,
                              target: string): (r: Result<Snapshot, WriteFault>)
    ensures r == Err(Refused) <==> reply.Answer? && !Success(reply.status) && !Ambiguous(reply.status)
    ensures r.Ok? ==> Decoded(r.value) && r.value.ownerId == account && HasOperationMarker(r.value.chat, op, create)
    ensures r.Ok? && !create ==> r.value.chatId == target
  {
    match reply
    case Lost => Err(OutcomeUnknown)
    case Answer(status, body) =>
      if !Success(status) then Err(if Ambiguous(status) then OutcomeUnknown else Refused)
      else if body.None? || DecodeResponse(body.value).None? then Err(OutcomeUnknown)
      else
        var s := DecodeResponse(body.value).value;
        if (!create && s.chatId != target) || s.ownerId != account || !HasOperationMarker(s.chat, op, create) then
          Err(OutcomeUnknown)
        else Ok(s)
  }

  ghost function ReadOutcome(reply: Reply, account: string, id: string): (r: Option<Snapshot>)
    ensures r.Some? ==> Decoded(r.value) && r.value.chatId == id && r.value.ownerId == account
  {
    match reply
    case Lost => None
    case Answer(status, body) =>
      if !Success(status) || body.None? || DecodeResponse(body.value).None? then None
      else
        var s := DecodeResponse(body.value).value;
        if s.chatId != id || s.ownerId != account then None else Some(s)
  }

  /** The client of one caller. The answers it is going to get are part of its state;
      when they run out, nothing comes back any more. */
  class Connection {
    const account: string
    var wire: seq<Reply>
    var identities: seq<bool>
    var posted: seq<Post>
    var asked: seq<string>

    constructor (account: string, wire: seq<Reply>, identities: seq<bool>)
      ensures this.account == account && this.wire == wire && this.identities == identities && posted == []
      ensures asked == []
    {
      this.account, this.wire, this.identities := account, wire, identities;
      posted, asked := [], [];
    }

    /** The reply to the request after the next `k`. */
    ghost function Coming(k: nat): Reply
      reads this
    {
      if k < |wire| then wire[k] else Lost
    }

    /** Whether the live site and account are the configured ones. */
    method VerifyIdentity() returns (ok: bool)
      modifies this`identities
      ensures ok <==> old(identities) != [] && old(identities)[0]
    {
      ok := identities != [] && identities[0];
      if identities != [] { identities := identities[1..]; }
    }

    method Receive() returns (reply: Reply)
      modifies this`wire
      ensures reply == old(Coming(0)) && wire == if old(wire) == [] then [] else old(wire)[1..]
    {
      if wire == [] { return Lost; }
      reply := wire[0];
      wire := wire[1..];
    }

    /** Creates a chat. A refusal before anything is sent is definite. */
    method Create(op: string, desired: Snapshot) returns (r: Result<Snapshot, WriteFault>)
      modifies this`wire, this`posted
      ensures posted == if Storage.Blank(op) then old(posted) else old(posted) + [Post(op, None, desired)]
      ensures r == if Storage.Blank(op) then Err(Refused) else WriteOutcome(old(Coming(0)), account, op, true, "")
      ensures !Storage.Blank(op) ==> forall k: nat :: Coming(k) == old(Coming(k + 1))
    {
      if Storage.Blank(op) { return Err(Refused); }
      posted := posted + [Post(op, None, desired)];
      var reply := Receive();
      r := Judge(reply, op, true, "");
    }

    method Update(id: string, op: string, desired: Snapshot) returns (r: Result<Snapshot, WriteFault>)
      modifies this`wire, this`posted
      ensures posted ==
        if !PathOk(id) || Storage.Blank(op) then old(posted) else old(posted) + [Post(op, Some(id), desired)]
      ensures r ==
        if !PathOk(id) || Storage.Blank(op) then Err(Refused) else WriteOutcome(old(Coming(0)), account, op, false, id)
      ensures PathOk(id) && !Storage.Blank(op) ==> forall k: nat :: Coming(k) == old(Coming(k + 1))
    {
      if !PathOk(id) || Storage.Blank(op) { return Err(Refused); }
      posted := posted + [Post(op, Some(id), desired)];
      var reply := Receive();
      r := Judge(reply, op, false, id);
    }

    method Judge(reply: Reply, op: string, create: bool, target: string) returns (r: Result<Snapshot, WriteFault>)
      ensures r == WriteOutcome(reply, account, op, create, target)
    {
      if reply.Lost? { return Err(OutcomeUnknown); }
      if !Success(reply.status) {
        if Ambiguous(reply.status) { return Err(OutcomeUnknown); }
        return Err(Refused);
      }
      if reply.body.None? { return Err(OutcomeUnknown); }
      var s := Decode(reply.body.value);
      if s.None? { return Err(OutcomeUnknown); }
      if (!create && s.value.chatId != target) || s.value.ownerId != account { return Err(OutcomeUnknown); }
      if !HasOperationMarker(s.value.chat, op, create) { return Err(OutcomeUnknown); }
      r := Ok(s.value);
    }

    method Read(id: string) returns (r: Option<Snapshot>)
      modifies this`wire, this`asked
      ensures asked == if PathOk(id) then old(asked) + [id] else old(asked)
      ensures r == if PathOk(id) then ReadOutcome(old(Coming(0)), account, id) else None
      ensures PathOk(id) ==> forall k: nat :: Coming(k) == old(Coming(k + 1))
    {
      if !PathOk(id) { return None; }
      asked := asked + [id];
      var reply := Receive();
      if reply.Lost? || !Success(reply.status) || reply.body.None? { return None; }
      var s := Decode(reply.body.value);
      if s.None? || s.value.chatId != id || s.value.ownerId != account { return None; }
      r := s;
    }
  }
}
