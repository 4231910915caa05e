/** Request/response correlation over an asynchronous network:
    `RPCClient` of src/styrened/rpc/client.py, as a state machine, as the
    class that carries it out, and as runs against servers and a network
    that loses, duplicates and reorders. */
module RpcCorrelation {
  import opened Prelude
  import Wire = StyreneWire

  type RequestId = Bytes
  type CallId = nat
  type Unpack = Bytes -> Option<Tree>

  // ---------------------------------------------------------------- responses

  datatype Response = Response(messageType: Byte, fields: map<string, Tree>)

  predicate IsRpcResponse(code: Byte) {
    code in {Wire.STATUS_RESPONSE, Wire.EXEC_RESULT, Wire.REBOOT_RESULT, Wire.CONFIG_RESULT,
             Wire.SELF_UPDATE_RESULT, Wire.INBOX_RESPONSE, Wire.MESSAGES_RESPONSE, Wire.ERROR}
  }

  /** The response object, or None where `_decode_response` raises: a payload
      that is not a mapping, an ERROR response, or an unexpected type. */
  function DecodeResponse(unpack: Unpack, e: Wire.Envelope): Option<Response> {
    var data := if e.payload == [] then Some(Dict(map[])) else unpack(e.payload);
    if data.Some? && data.value.Dict? && IsRpcResponse(e.messageType) && e.messageType != Wire.ERROR
    then Some(Response(e.messageType, data.value.m))
    else None
  }

  // ------------------------------------------------------------- client state

  /** A future, with the envelope that completed it. */
  datatype Future =
    | Pending
    | Completed(response: Response, origin: Wire.Envelope)
    | Failed(origin: Wire.Envelope)
    | Cancelled

  /** How `call` ends: it returns a response or raises one of three errors. */
  datatype Outcome =
    | Returned(response: Response, origin: Wire.Envelope)
    | InvalidResponse(origin: Wire.Envelope)
    | TransportError
    | TimeoutError

  /** Where a `call` coroutine stands: awaiting the send, awaiting the future,
      between the cancellation by `wait_for` and its own cleanup, or ended. */
  datatype Phase = Sending | Waiting | Expiring | Ended(outcome: Outcome)

  datatype Call = Call(requestId: RequestId, future: Future, phase: Phase)

  /** `pending` maps a request id to the call whose future it will resolve. */
  datatype State = State(calls: map<CallId, Call>, pending: map<RequestId, CallId>)

  predicate WellFormed(s: State) {
    forall id :: id in s.pending ==> s.pending[id] in s.calls
  }

  predicate InPhase(s: State, c: CallId, p: Phase) {
    c in s.calls && s.calls[c].phase == p
  }

  function Advance(s: State, c: CallId, p: Phase): State
    requires c in s.calls
  {
    s.(calls := s.calls[c := s.calls[c].(phase := p)])
  }

  function Remove(s: State, id: RequestId): State {
    s.(pending := s.pending - {id})
  }

  function Begin(s: State, c: CallId, id: RequestId): State {
    State(s.calls[c := Call(id, Pending, Sending)], s.pending[id := c])
  }

  function SendFails(s: State, c: CallId): State
    requires c in s.calls
  {
    Remove(Advance(s, c, Ended(TransportError)), s.calls[c].requestId)
  }

  /** `_handle_response`: complete the future filed under the envelope's id,
      if it is still open, and drop the entry either way. */
  function Receive(unpack: Unpack, s: State, e: Wire.Envelope): State
    requires WellFormed(s)
  {
    if e.requestId.None? || e.requestId.value == Wire.NO_CORRELATION || e.requestId.value !in s.pending then s
    else
      var c := s.pending[e.requestId.value];
      Remove(s.(calls := s.calls[c := Resolved(unpack, s.calls[c], e)]), e.requestId.value)
  }

  function Resolved(unpack: Unpack, call: Call, e: Wire.Envelope): Call {
    if !call.future.Pending? then call
    else match DecodeResponse(unpack, e)
      case Some(r) => call.(future := Completed(r, e))
      case None => call.(future := Failed(e))
  }

  /** `handle_message`: raw custom data, ignored unless it decodes to an
      envelope of an RPC response type. */
  function ReceiveData(unpack: Unpack, s: State, data: Bytes): State
    requires WellFormed(s)
  {
    match Wire.Decode(data)
    case Ok(e) => if IsRpcResponse(e.messageType) then Receive(unpack, s, e) else s
    case Err(_) => s
  }

  /** The awaiting coroutine resumes with the future's result. */
  function Finish(s: State, c: CallId): State
    requires c in s.calls
  {
    match s.calls[c].future
    case Completed(r, e) => Advance(s, c, Ended(Returned(r, e)))
    case Failed(e) => Advance(s, c, Ended(InvalidResponse(e)))
    case _ => s
  }

  /** `wait_for` gives up. An open future is cancelled; a result that has just
      arrived but was not yet picked up is lost. */
  function Expire(s: State, c: CallId): State
    requires c in s.calls
  {
    var call := s.calls[c];
    s.(calls := s.calls[c := call.(phase := Expiring, future := if call.future.Pending? then Cancelled
        else call.future)])
  }

  function CleanUp(s: State, c: CallId): State
    requires c in s.calls
  {
    Remove(Advance(s, c, Ended(TimeoutError)), s.calls[c].requestId)
  }

  // ---------------------------------------------------------------- the class

  /** The client object. `calls` stands for the coroutines and futures that
      the event loop holds for it; `pending` is `pending_requests`. */
  class RpcClient {
    var calls: map<CallId, Call>
    var pending: map<RequestId, CallId>
    const unpack: Unpack

    ghost function View(): State
      reads this
    {
      State(calls, pending)
    }

    constructor (unpack: Unpack)
      ensures View() == State(map[], map[]) && this.unpack == unpack
    {
      calls, pending := map[], map[];
      this.unpack := unpack;
    }

    method AddPendingRequest(id: RequestId, c: CallId)
      modifies this
      ensures View() == old(View()).(pending := old(pending)[id := c])
    {
      pending := pending[id := c];
    }

    method RemovePendingRequest(id: RequestId)
      modifies this
      ensures View() == Remove(old(View()), id)
    {
      if id in pending {
        pending := pending - {id};
      }
    }

    /** The first half of `call`, up to awaiting the send. An envelope without
        a usable id is rebuilt with a generated one, which the envelope's own
        checks refuse for version 1: the call then raises and files nothing. */
    method StartCall(c: CallId, e: Wire.Envelope, generated: RequestId)
      returns (sent: Result<Wire.Envelope, Wire.WireError>)
      requires c !in calls && Wire.Valid(e) && |generated| == Wire.REQUEST_ID_LENGTH
      modifies this
      ensures sent == if Wire.ExpectsResponse(e) then Ok(e)
                      else if e.version == 1 then Err(Wire.VersionOneWithId)
                      else Ok(e.(requestId := Some(generated)))
      ensures sent.Ok? ==> Wire.Valid(sent.value) && sent.value.requestId.Some?
      ensures View() == if sent.Ok? then Begin(old(View()), c, sent.value.requestId.value) else old(View())
    {
      sent := Ok(e);
      if e.requestId.None? || e.requestId.value == Wire.NO_CORRELATION {
        sent := Wire.Make(e.version, e.messageType, e.payload, Some(generated), generated);
        if sent.Err? {
          return;
        }
      }
      var id := sent.value.requestId.value;
      calls := calls[c := Call(id, Pending, Sending)];
      AddPendingRequest(id, c);
    }

    method SendFailed(c: CallId)
      requires c in calls
      modifies this
      ensures View() == SendFails(old(View()), c)
    {
      RemovePendingRequest(calls[c].requestId);
      calls := calls[c := calls[c].(phase := Ended(TransportError))];
    }

    method HandleResponse(e: Wire.Envelope)
      requires WellFormed(View())
      modifies this
      ensures View() == Receive(unpack, old(View()), e)
    {
      if e.requestId.None? || e.requestId.value == Wire.NO_CORRELATION {
        return;
      }
      var id := e.requestId.value;
      if id !in pending {
        return;
      }
      var c := pending[id];
      var response := DecodeResponse(unpack, e);
      if calls[c].future.Pending? {
        if response.Some? {
          calls := calls[c := calls[c].(future := Completed(response.value, e))];
        } else {
          calls := calls[c := calls[c].(future := Failed(e))];
        }
      }
      RemovePendingRequest(id);
    }

    method HandleMessage(data: Bytes)
      requires WellFormed(View())
      modifies this
      ensures View() == ReceiveData(unpack, old(View()), data)
    {
      var decoded := Wire.Decode(data);
      if decoded.Ok? && IsRpcResponse(decoded.value.messageType) {
        HandleResponse(decoded.value);
      }
    }

    /** `wait_for` reaches the deadline. */
    method Cancel(c: CallId)
      requires c in calls
      modifies this
      ensures View() == Expire(old(View()), c)
    {
      var future := calls[c].future;
      if future.Pending? {
        future := Cancelled;
      }
      calls := calls[c := calls[c].(phase := Expiring, future := future)];
    }

    /** The `except TimeoutError` block of `call`. */
    method TimedOut(c: CallId)
      requires c in calls
      modifies this
      ensures View() == CleanUp(old(View()), c)
    {
      RemovePendingRequest(calls[c].requestId);
      calls := calls[c := calls[c].(phase := Ended(TimeoutError))];
    }
  }

  // ------------------------------------------------------ late and duplicate

  /** Data completes nothing unless it is an RPC response whose own id is in
      the table, and then it touches only the call filed under that id. */
  lemma OnlyOwnIdIsTouched(unpack: Unpack, s: State, data: Bytes, c: CallId)
    requires WellFormed(s) && c in s.calls
    requires ReceiveData(unpack, s, data).calls[c] != s.calls[c]
    ensures var e := Wire.Decode(data);
            && e.Ok? && IsRpcResponse(e.value.messageType) && Wire.ExpectsResponse(e.value)
            && e.value.requestId.value in s.pending && s.pending[e.value.requestId.value] == c
            && s.calls[c].future.Pending?
  {
  }

  // --------------------------------------------------------------------- runs

  /** The client together with what it put on the air (`requests`), what
      servers answered (`replies`) and everything that may still arrive. Data
      stays in `network` after delivery, so it may arrive any number of times,
      in any order, or never. */
  datatype World = World(client: State, requests: set<Wire.Envelope>, replies: set<Wire.Envelope>, network: set<Bytes>)

  const START: World := World(State(map[], map[]), {}, {}, {})

  datatype Step =
    | DoBegin(c: CallId, request: Wire.Envelope)
    | DoSendOk(c: CallId)
    | DoSendFail(c: CallId)
    | DoReply(reply: Wire.Envelope)
    | DoNoise(data: Bytes)
    | DoDeliver(data: Bytes)
    | DoFinish(c: CallId)
    | DoExpire(c: CallId)
    | DoCleanUp(c: CallId)

  predicate DecodesTo(data: Bytes, id: RequestId) {
    Wire.Decode(data).Ok? && Wire.Decode(data).value.requestId == Some(id)
  }

  predicate IdUsed(s: State, id: RequestId) {
    exists c :: c in s.calls && s.calls[c].requestId == id
  }

  /** What `os.urandom` is trusted for: an id nobody has used before. */
  ghost predicate FreshId(w: World, id: RequestId) {
    && id != Wire.NO_CORRELATION
    && !IdUsed(w.client, id)
    && forall data :: data in w.network ==> !DecodesTo(data, id)
  }

  predicate Answers(reply: Wire.Envelope, requests: set<Wire.Envelope>) {
    exists q :: q in requests && q.requestId == reply.requestId
  }

  ghost predicate Enabled(w: World, step: Step) {
    match step
    case DoBegin(c, q) =>
      Wire.Valid(q) && q.version == 2 && c !in w.client.calls && FreshId(w, q.requestId.value)
    case DoSendOk(c) => InPhase(w.client, c, Sending)
    case DoSendFail(c) => InPhase(w.client, c, Sending)
    case DoReply(r) => Wire.Valid(r) && r.version == 2 && Answers(r, w.requests)
    case DoNoise(data) => forall c :: c in w.client.calls ==> !DecodesTo(data, w.client.calls[c].requestId)
    case DoDeliver(data) => data in w.network
    case DoFinish(c) =>
      InPhase(w.client, c, Waiting) && (w.client.calls[c].future.Completed? || w.client.calls[c].future.Failed?)
    case DoExpire(c) => InPhase(w.client, c, Waiting)
    case DoCleanUp(c) => InPhase(w.client, c, Expiring)
  }

  ghost function Next(unpack: Unpack, w: World, step: Step): World
    requires WellFormed(w.client) && Enabled(w, step)
  {
    match step
    case DoBegin(c, q) => w.(client := Begin(w.client, c, q.requestId.value), requests := w.requests + {q})
    case DoSendOk(c) => w.(client := Advance(w.client, c, Waiting))
    case DoSendFail(c) => w.(client := SendFails(w.client, c))
    case DoReply(r) => w.(replies := w.replies + {r}, network := w.network + {Wire.Encode(r)})
    case DoNoise(data) => w.(network := w.network + {data})
    case DoDeliver(data) => w.(client := ReceiveData(unpack, w.client, data))
    case DoFinish(c) => w.(client := Finish(w.client, c))
    case DoExpire(c) => w.(client := Expire(w.client, c))
    case DoCleanUp(c) => w.(client := CleanUp(w.client, c))
  }

  /** What an entry of the table may point at: a call whose future is still
      open, or one that `wait_for` cancelled and that has yet to clean up. */
  predicate Listed(call: Call) {
    || (call.future.Pending? && (call.phase.Sending? || call.phase.Waiting?))
    || (call.future.Cancelled? && call.phase.Expiring?)
  }

  /** Every entry is listed under its call's own id, and every call that can
      still be answered has its entry. */
  ghost predicate TableOk(s: State) {
    && (forall id {:trigger s.pending[id]} :: id in s.pending ==>
          && s.pending[id] in s.calls
          && s.calls[s.pending[id]].requestId == id
          && Listed(s.calls[s.pending[id]]))
    && (forall c {:trigger s.calls[c]} :: c in s.calls && s.calls[c].future.Pending? && !s.calls[c].phase.Ended? ==>
          s.calls[c].requestId in s.pending && s.pending[s.calls[c].requestId] == c)
  }

  /** A future's value came from a reply that a server really sent and that
      carries the call's own id; the outcome is the future's value. */
  ghost predicate CallOk(unpack: Unpack, replies: set<Wire.Envelope>, call: Call) {
    && call.requestId != Wire.NO_CORRELATION
    && (call.future.Completed? ==>
          && call.future.origin in replies
          && call.future.origin.requestId == Some(call.requestId)
          && DecodeResponse(unpack, call.future.origin) == Some(call.future.response))
    && (call.future.Failed? ==>
          && call.future.origin in replies
          && call.future.origin.requestId == Some(call.requestId)
          && IsRpcResponse(call.future.origin.messageType)
          && DecodeResponse(unpack, call.future.origin) == None)
    && (call.phase.Waiting? || call.phase.Sending? ==> !call.future.Cancelled?)
    && match call.phase
       case Ended(Returned(r, e)) => call.future == Completed(r, e)
       case Ended(InvalidResponse(e)) => call.future == Failed(e)
       case _ => true
  }

  ghost predicate CallsOk(unpack: Unpack, replies: set<Wire.Envelope>, s: State) {
    forall c {:trigger s.calls[c]} :: c in s.calls ==> CallOk(unpack, replies, s.calls[c])
  }

  ghost predicate IdsDistinct(s: State) {
    forall c, d {:trigger s.calls[c], s.calls[d]} ::
      c in s.calls && d in s.calls && s.calls[c].requestId == s.calls[d].requestId ==> c == d
  }

  ghost predicate RequestsOk(s: State, requests: set<Wire.Envelope>) {
    forall q :: q in requests ==> q.requestId.Some? && IdUsed(s, q.requestId.value)
  }

  /** Data in the air that carries a call's id is a server's reply. */
  ghost predicate NetworkOk(s: State, network: set<Bytes>, replies: set<Wire.Envelope>) {
    forall data, c {:trigger DecodesTo(data, s.calls[c].requestId)} ::
      data in network && c in s.calls && DecodesTo(data, s.calls[c].requestId) ==> Wire.Decode(data).value in replies
  }

  ghost predicate RepliesOk(w: World) {
    forall r :: r in w.replies ==> Answers(r, w.requests)
  }

  ghost predicate Inv(unpack: Unpack, w: World) {
    && TableOk(w.client)
    && CallsOk(unpack, w.replies, w.client)
    && IdsDistinct(w.client)
    && RequestsOk(w.client, w.requests)
    && NetworkOk(w.client, w.network, w.replies)
    && RepliesOk(w)
  }

  // ---------------------------------------------------- every step keeps Inv

  /** A step that changes one call, keeps its id, and keeps or drops its
      entry as the call's new standing requires. */
  lemma OneCallStep(unpack: Unpack, w: World, c: CallId, call: Call, pending: map<RequestId, CallId>)
    requires Inv(unpack, w) && c in w.client.calls
    requires call.requestId == w.client.calls[c].requestId && CallOk(unpack, w.replies, call)
    requires pending == if Listed(call) then w.client.pending else w.client.pending - {call.requestId}
    requires call.future.Pending? && !call.phase.Ended? ==>
               Listed(call) && w.client.calls[c].future.Pending? && !w.client.calls[c].phase.Ended?
    ensures Inv(unpack, w.(client := State(w.client.calls[c := call], pending)))
  {
    var s, s' := w.client, State(w.client.calls[c := call], pending);
    TableAfterOneCall(s, s', c);
    NetworkAfterOneCall(s, s', w.network, w.replies);
    UsedIdsKept(s, s');
  }

  lemma TableAfterOneCall(s: State, s': State, c: CallId)
    requires TableOk(s) && IdsDistinct(s) && c in s.calls && c in s'.calls
    requires s'.calls == s.calls[c := s'.calls[c]] && s'.calls[c].requestId == s.calls[c].requestId
    requires s'.pending == if Listed(s'.calls[c]) then s.pending else s.pending - {s.calls[c].requestId}
    requires s'.calls[c].future.Pending? && !s'.calls[c].phase.Ended? ==>
               Listed(s'.calls[c]) && s.calls[c].future.Pending? && !s.calls[c].phase.Ended?
    ensures TableOk(s')
  {
    forall id {:trigger s'.pending[id]} | id in s'.pending
      ensures s'.pending[id] in s'.calls && s'.calls[s'.pending[id]].requestId == id && Listed(s'.calls[s'.pending[id]])
    {
      assert s'.pending[id] == s.pending[id];
    }
    forall d {:trigger s'.calls[d]} | d in s'.calls && s'.calls[d].future.Pending? && !s'.calls[d].phase.Ended?
      ensures s'.calls[d].requestId in s'.pending && s'.pending[s'.calls[d].requestId] == d
    {
      assert s.calls[d].requestId in s.pending && s.pending[s.calls[d].requestId] == d;
    }
  }

  lemma NetworkAfterOneCall(s: State, s': State, network: set<Bytes>, replies: set<Wire.Envelope>)
    requires NetworkOk(s, network, replies)
    requires s'.calls.Keys == s.calls.Keys
    requires forall c {:trigger s'.calls[c]} :: c in s.calls ==> s'.calls[c].requestId == s.calls[c].requestId
    ensures NetworkOk(s', network, replies)
  {
    forall data, c | data in network && c in s'.calls && DecodesTo(data, s'.calls[c].requestId)
      ensures Wire.Decode(data).value in replies
    {
      assert DecodesTo(data, s.calls[c].requestId);
    }
  }

  lemma UsedIdsKept(s: State, s': State)
    requires s.calls.Keys <= s'.calls.Keys
    requires forall c {:trigger s'.calls[c]} :: c in s.calls ==> s'.calls[c].requestId == s.calls[c].requestId
    ensures forall id :: IdUsed(s, id) ==> IdUsed(s', id)
  {
    forall id | IdUsed(s, id) ensures IdUsed(s', id) {
      var c :| c in s.calls && s.calls[c].requestId == id;
      assert s'.calls[c].requestId == id;
    }
  }

  lemma BeginStep(unpack: Unpack, w: World, c: CallId, q: Wire.Envelope)
    requires Inv(unpack, w) && Enabled(w, DoBegin(c, q))
    ensures Inv(unpack, Next(unpack, w, DoBegin(c, q)))
  {
    var id := q.requestId.value;
    var s, s' := w.client, Begin(w.client, c, id);
    forall i | i in s.pending ensures IdUsed(s, i) {
      assert s.calls[s.pending[i]].requestId == i;
    }
    assert IdUsed(s', id) by {
      assert s'.calls[c].requestId == id;
    }
    UsedIdsKept(s, s');
    forall data, d | data in w.network && d in s'.calls && DecodesTo(data, s'.calls[d].requestId)
      ensures Wire.Decode(data).value in w.replies
    {
      assert d != c;
      assert DecodesTo(data, s.calls[d].requestId);
    }
    assert forall p :: Answers(p, w.requests) ==> Answers(p, w.requests + {q});
  }

  lemma ReplyStep(unpack: Unpack, w: World, r: Wire.Envelope)
    requires Inv(unpack, w) && Enabled(w, DoReply(r))
    ensures Inv(unpack, Next(unpack, w, DoReply(r)))
  {
    var w' := Next(unpack, w, DoReply(r));
    Wire.DecodeEncode(r);
    assert CallsOk(unpack, w'.replies, w'.client);
    assert NetworkOk(w'.client, w'.network, w'.replies);
  }

  lemma DeliverStep(unpack: Unpack, w: World, data: Bytes)
    requires Inv(unpack, w) && data in w.network
    ensures Inv(unpack, Next(unpack, w, DoDeliver(data)))
  {
    hide Resolved, IdsDistinct, RequestsOk;
    if ReceiveData(unpack, w.client, data) != w.client {
      var e := Wire.Decode(data).value;
      var c := w.client.pending[e.requestId.value];
      assert DecodesTo(data, w.client.calls[c].requestId);
      ReceiveStep(unpack, w, e);
    }
  }

  lemma ReceiveStep(unpack: Unpack, w: World, e: Wire.Envelope)
    requires Inv(unpack, w) && e in w.replies && IsRpcResponse(e.messageType)
    ensures Inv(unpack, w.(client := Receive(unpack, w.client, e)))
  {
    if e.requestId.Some? && e.requestId.value != Wire.NO_CORRELATION && e.requestId.value in w.client.pending {
      var c := w.client.pending[e.requestId.value];
      var call := Resolved(unpack, w.client.calls[c], e);
      if Listed(call) {
        // Cancelled by wait_for: the entry goes, the future stays cancelled.
        CancelledEntryDropped(unpack, w, c);
      } else {
        OneCallStep(unpack, w, c, call, w.client.pending - {call.requestId});
      }
    }
  }

  lemma CancelledEntryDropped(unpack: Unpack, w: World, c: CallId)
    requires Inv(unpack, w) && c in w.client.calls && w.client.calls[c].future.Cancelled?
    ensures Inv(unpack, w.(client := Remove(w.client, w.client.calls[c].requestId)))
    ensures w.client.calls[c := w.client.calls[c]] == w.client.calls
  {
    var s' := Remove(w.client, w.client.calls[c].requestId);
    forall d {:trigger s'.calls[d]} | d in s'.calls && s'.calls[d].future.Pending? && !s'.calls[d].phase.Ended?
      ensures s'.calls[d].requestId in s'.pending && s'.pending[s'.calls[d].requestId] == d
    {
      assert w.client.calls[d].requestId in w.client.pending;
    }
    NetworkAfterOneCall(w.client, s', w.network, w.replies);
    UsedIdsKept(w.client, s');
  }

  lemma InvStep(unpack: Unpack, w: World, step: Step)
    requires Inv(unpack, w) && Enabled(w, step)
    ensures Inv(unpack, Next(unpack, w, step))
  {
    match step
    case DoBegin(c, q) => BeginStep(unpack, w, c, q);
    case DoReply(r) => ReplyStep(unpack, w, r);
    case DoNoise(data) =>
    case DoDeliver(data) => DeliverStep(unpack, w, data);
    case DoSendOk(c) => CallStep(unpack, w, step, c);
    case DoSendFail(c) => CallStep(unpack, w, step, c);
    case DoFinish(c) => CallStep(unpack, w, step, c);
    case DoExpire(c) => CallStep(unpack, w, step, c);
    case DoCleanUp(c) => CallStep(unpack, w, step, c);
  }

  lemma CallStep(unpack: Unpack, w: World, step: Step, c: CallId)
    requires Inv(unpack, w) && Enabled(w, step)
    requires step in {DoSendOk(c), DoSendFail(c), DoFinish(c), DoExpire(c), DoCleanUp(c)}
    ensures Inv(unpack, Next(unpack, w, step))
  {
    var s' := Next(unpack, w, step).client;
    var call := s'.calls[c];
    var pending := if Listed(call) then w.client.pending else w.client.pending - {call.requestId};
    assert s'.pending == pending by {
      if call.requestId in w.client.pending {
        assert w.client.calls[w.client.pending[call.requestId]].requestId == call.requestId;
        assert w.client.pending[call.requestId] == c;
      }
    }
    OneCallStep(unpack, w, c, call, pending);
  }

  /** What each step does to the call it is about, to the other calls, and to
      what is on the air. */
  lemma StepOnCall(unpack: Unpack, w: World, step: Step)
    requires WellFormed(w.client) && Enabled(w, step)
    ensures var s, w' := w.client, Next(unpack, w, step);
            var s' := w'.client;
            && w'.requests == w.requests + (if step.DoBegin? then {step.request} else {})
            && w'.replies == w.replies + (if step.DoReply? then {step.reply} else {})
            && w'.network == w.network + (if step.DoReply? then {Wire.Encode(step.reply)}
                                          else if step.DoNoise? then {step.data} else {})
            && match step
               case DoBegin(c, q) => s' == State(s.calls[c := Call(q.requestId.value, Pending, Sending)],
                                                 s.pending[q.requestId.value := c])
               case DoSendOk(c) => s' == s.(calls := s.calls[c := s.calls[c].(phase := Waiting)])
               case DoSendFail(c) => s' == State(s.calls[c := s.calls[c].(phase := Ended(TransportError))],
                                                 s.pending - {s.calls[c].requestId})
               case DoExpire(c) =>
                 && s' == s.(calls := s.calls[c := Call(s.calls[c].requestId, s'.calls[c].future, Expiring)])
                 && s'.calls[c].future == (if s.calls[c].future == Pending then Cancelled else s.calls[c].future)
               case DoCleanUp(c) => s' == State(s.calls[c := s.calls[c].(phase := Ended(TimeoutError))],
                                                s.pending - {s.calls[c].requestId})
               case DoFinish(c) =>
                 && s' == s.(calls := s.calls[c := s.calls[c].(phase := s'.calls[c].phase)])
                 && s'.calls[c].phase == Ended(match s.calls[c].future
                                               case Completed(r, e) => Returned(r, e)
                                               case Failed(e) => InvalidResponse(e))
               case DoDeliver(_) => s'.calls.Keys == s.calls.Keys
               case _ => s' == s
  {
  }

  // ---------------------------------------------------- properties of all runs

  ghost predicate IsRun(unpack: Unpack, worlds: seq<World>, steps: seq<Step>) {
    && |worlds| == |steps| + 1
    && worlds[0] == START
    && forall i :: 0 <= i < |steps| ==>
         && WellFormed(worlds[i].client) && Enabled(worlds[i], steps[i])
         && worlds[i + 1] == Next(unpack, worlds[i], steps[i])
  }

  lemma {:induction false} RunKeepsInv(unpack: Unpack, worlds: seq<World>, steps: seq<Step>, i: nat)
    requires IsRun(unpack, worlds, steps) && i < |worlds|
    ensures Inv(unpack, worlds[i])
  {
    if i > 0 {
      RunKeepsInv(unpack, worlds, steps, i - 1);
      InvStep(unpack, worlds[i - 1], steps[i - 1]);
    }
  }

  /** What a call learns from an envelope: the mapping in its payload, or an
      empty one if it has no payload. The codes are those of the results of
      status, exec, reboot, configuration, inbox, messages and self-update. */
  predicate Carries(unpack: Unpack, e: Wire.Envelope, r: Response) {
    && e.messageType in {0x11, 0x60, 0x61, 0x62, 0x64, 0x65, 0x66} && r.messageType == e.messageType
    && (e.payload == [] ==> r.fields == map[])
    && (e.payload != [] ==> unpack(e.payload) == Some(Dict(r.fields)))
  }

  /** An error report (0xFF), or a payload that is no mapping. */
  predicate Unreadable(unpack: Unpack, e: Wire.Envelope) {
    || e.messageType == 0xFF
    || (e.payload != [] && (unpack(e.payload).None? || !unpack(e.payload).value.Dict?))
  }

  lemma DecodedIsCarried(unpack: Unpack, e: Wire.Envelope, r: Response)
    ensures DecodeResponse(unpack, e) == Some(r) <==> Carries(unpack, e, r)
    ensures IsRpcResponse(e.messageType) ==> (DecodeResponse(unpack, e) == None <==> Unreadable(unpack, e))
  {
  }

  /** An answer reaches its call: when the encoded envelope arrives while the
      call waits and the call then resumes, it returns the payload's mapping
      or, for an error report or any other payload, raises. Envelopes of
      foreign types leave it waiting. */
  lemma AnswerIsReturned(unpack: Unpack, s: State, c: CallId, e: Wire.Envelope, m: map<string, Tree>)
    requires TableOk(s) && c in s.calls && s.calls[c].phase.Waiting? && s.calls[c].future.Pending?
    requires e.version == 2 && e.requestId == Some(s.calls[c].requestId) && |e.payload| <= 262144
    requires |s.calls[c].requestId| == 16 && s.calls[c].requestId != Wire.NO_CORRELATION
    ensures WellFormed(s)
    ensures var s' := ReceiveData(unpack, s, Wire.Encode(e));
            && c in s'.calls
            && var result := Finish(s', c).calls[c].phase;
            && (e.messageType in {0x11, 0x60, 0x61, 0x62, 0x64, 0x65, 0x66} ==>
                  && (e.payload != [] && unpack(e.payload) == Some(Dict(m)) ==>
                        result == Ended(Returned(Response(e.messageType, m), e)))
                  && (e.payload == [] ==> result == Ended(Returned(Response(e.messageType, map[]), e)))
                  && (e.payload != [] && (unpack(e.payload).None? || !unpack(e.payload).value.Dict?) ==>
                        result == Ended(InvalidResponse(e))))
            && (e.messageType == 0xFF ==> result == Ended(InvalidResponse(e)))
            && (e.messageType !in {0x11, 0x60, 0x61, 0x62, 0x64, 0x65, 0x66, 0xFF} ==> s' == s)
  {
    if Wire.KnownType(e.messageType) {
      Wire.DecodeEncode(e);
    } else {
      UnknownIsDropped(e);
    }
    hide Wire.Decode, Wire.Encode;
  }

  lemma UnknownIsDropped(e: Wire.Envelope)
    requires e.version == 2 && e.requestId.Some? && |e.requestId.value| == 16 && !Wire.KnownType(e.messageType)
    ensures Wire.Decode(Wire.Encode(e)).Err?
  {
    var data := Wire.Encode(e);
    assert Wire.PREFIX <= data && data[12] == e.messageType;
  }

  /** A response is returned only to the call whose own id it carries, and
      only if a server sent it in answer to a request bearing that id; it is
      what that envelope holds. A call raises only for an envelope that
      cannot be read. */
  lemma ReturnedResponseIsOwn(unpack: Unpack, worlds: seq<World>, steps: seq<Step>, i: nat, c: CallId)
    requires IsRun(unpack, worlds, steps) && i < |worlds| && c in worlds[i].client.calls
    ensures var call := worlds[i].client.calls[c];
            match call.phase
            case Ended(Returned(r, e)) =>
              && e in worlds[i].replies && e.requestId == Some(call.requestId)
              && Carries(unpack, e, r) && Answers(e, worlds[i].requests)
            case Ended(InvalidResponse(e)) =>
              && e in worlds[i].replies && e.requestId == Some(call.requestId)
              && Unreadable(unpack, e) && Answers(e, worlds[i].requests)
            case _ => true
  {
    RunKeepsInv(unpack, worlds, steps, i);
    var call := worlds[i].client.calls[c];
    assert CallOk(unpack, worlds[i].replies, call);
    if call.future.Completed? {
      DecodedIsCarried(unpack, call.future.origin, call.future.response);
    } else if call.future.Failed? {
      DecodedIsCarried(unpack, call.future.origin, Response(0, map[]));
    }
  }

  /** A call that has not ended and whose future is open is in the table under
      its id; once a call has ended its id is not in the table. */
  lemma TableFollowsCalls(unpack: Unpack, worlds: seq<World>, steps: seq<Step>, i: nat, c: CallId)
    requires IsRun(unpack, worlds, steps) && i < |worlds| && c in worlds[i].client.calls
    ensures var s := worlds[i].client;
            var call := s.calls[c];
            && (call.requestId in s.pending ==> s.pending[call.requestId] == c && Listed(call))
            && (!call.phase.Ended? && call.future.Pending? ==> call.requestId in s.pending)
            && (call.phase.Ended? ==> call.requestId !in s.pending)
  {
    RunKeepsInv(unpack, worlds, steps, i);
    EntryLeadsBack(worlds[i].client, c);
  }

  lemma EntryLeadsBack(s: State, c: CallId)
    requires TableOk(s) && IdsDistinct(s) && c in s.calls
    ensures forall id :: id in s.pending && (s.pending[id] == c || id == s.calls[c].requestId) ==>
              s.pending[id] == c && id == s.calls[c].requestId && Listed(s.calls[c])
  {
    forall id | id in s.pending
      ensures s.calls[s.pending[id]].requestId == id && Listed(s.calls[s.pending[id]])
    {
    }
  }

  /** Data on the air that can no longer complete anything: if it is an RPC
      response, its id is out of the table. */
  predicate Spent(w: World, data: Bytes) {
    data in w.network &&
    match Wire.Decode(data)
    case Err(_) => true
    case Ok(e) => IsRpcResponse(e.messageType) && Wire.ExpectsResponse(e) ==> e.requestId.value !in w.client.pending
  }

  lemma SpentChangesNothing(unpack: Unpack, w: World, data: Bytes)
    requires WellFormed(w.client)
    ensures Spent(w, data) ==> Next(unpack, w, DoDeliver(data)) == w
    ensures data in w.network ==> Spent(Next(unpack, w, DoDeliver(data)), data)
  {
  }

  /** Ids enter the table only when they are fresh. */
  lemma SpentStays(unpack: Unpack, w: World, step: Step, data: Bytes)
    requires Inv(unpack, w) && Enabled(w, step) && Spent(w, data)
    ensures Spent(Next(unpack, w, step), data)
  {
    hide CallsOk, IdsDistinct, RequestsOk, RepliesOk;
    var w' := Next(unpack, w, step);
    if Wire.Decode(data).Ok? && Wire.ExpectsResponse(Wire.Decode(data).value) {
      var id := Wire.Decode(data).value.requestId.value;
      assert DecodesTo(data, id);
      assert id in w'.client.pending ==> id in w.client.pending;
    }
  }

  lemma {:induction false} SpentInRun(unpack: Unpack, worlds: seq<World>, steps: seq<Step>, i: nat, j: nat, data: Bytes)
    requires IsRun(unpack, worlds, steps) && i < j <= |steps| && steps[i] == DoDeliver(data)
    ensures Spent(worlds[j], data)
    decreases j
  {
    hide Spent, Inv;
    if j == i + 1 {
      SpentChangesNothing(unpack, worlds[i], data);
    } else {
      SpentInRun(unpack, worlds, steps, i, j - 1, data);
      RunKeepsInv(unpack, worlds, steps, j - 1);
      SpentStays(unpack, worlds[j - 1], steps[j - 1], data);
    }
  }

  /** In every run, whatever else was sent, delivered, begun, cancelled or
      cleaned up in between, data that arrives again changes nothing. */
  lemma DuplicateIsIgnored(unpack: Unpack, worlds: seq<World>, steps: seq<Step>, i: nat, j: nat, data: Bytes)
    requires IsRun(unpack, worlds, steps) && i < j < |steps|
    requires steps[i] == DoDeliver(data) && steps[j] == DoDeliver(data)
    ensures worlds[j + 1] == worlds[j]
  {
    SpentInRun(unpack, worlds, steps, i, j, data);
    SpentChangesNothing(unpack, worlds[j], data);
  }

  /** A late response, one that arrives after its call has ended, changes
      nothing either. */
  lemma LateIsIgnored(unpack: Unpack, worlds: seq<World>, steps: seq<Step>, j: nat, data: Bytes, c: CallId)
    requires IsRun(unpack, worlds, steps) && j < |steps| && steps[j] == DoDeliver(data)
    requires HasEnded(worlds[j].client, c) && DecodesTo(data, worlds[j].client.calls[c].requestId)
    ensures worlds[j + 1] == worlds[j]
  {
    TableFollowsCalls(unpack, worlds, steps, j, c);
    SpentChangesNothing(unpack, worlds[j], data);
  }

  predicate HasEnded(s: State, c: CallId) {
    c in s.calls && s.calls[c].phase.Ended?
  }

  /** An ended call is frozen: its outcome never changes again. */
  lemma {:induction false} OutcomeIsFinal(unpack: Unpack, worlds: seq<World>, steps: seq<Step>, i: nat, j: nat,
      c: CallId)
    requires IsRun(unpack, worlds, steps) && i <= j < |worlds| && HasEnded(worlds[i].client, c)
    ensures c in worlds[j].client.calls && worlds[j].client.calls[c] == worlds[i].client.calls[c]
    decreases j
  {
    hide Inv, Next, Enabled;
    if i < j {
      OutcomeIsFinal(unpack, worlds, steps, i, j - 1, c);
      RunKeepsInv(unpack, worlds, steps, j - 1);
      EndedIsFrozen(unpack, worlds[j - 1], steps[j - 1], c);
    }
  }

  lemma EndedIsFrozen(unpack: Unpack, w: World, step: Step, c: CallId)
    requires Inv(unpack, w) && Enabled(w, step) && HasEnded(w.client, c)
    ensures var w' := Next(unpack, w, step);
            c in w'.client.calls && w'.client.calls[c] == w.client.calls[c]
    ensures !EndsCall(step, c)
  {
    hide CallOk, NetworkOk, RequestsOk, RepliesOk;
    EntryLeadsBack(w.client, c);
  }

  /** The steps at which `call` returns or raises. */
  predicate EndsCall(step: Step, c: CallId) {
    step == DoSendFail(c) || step == DoFinish(c) || step == DoCleanUp(c)
  }

  function EndCount(steps: seq<Step>, c: CallId): nat {
    if steps == [] then 0
    else EndCount(steps[..|steps| - 1], c) + if EndsCall(steps[|steps| - 1], c) then 1 else 0
  }

  /** In every run each call ends at most once, and it has ended exactly when
      one of its ending steps was taken. */
  lemma {:induction false} EndsExactlyOnce(unpack: Unpack, worlds: seq<World>, steps: seq<Step>, c: CallId)
    requires IsRun(unpack, worlds, steps)
    ensures EndCount(steps, c) == if HasEnded(worlds[|steps|].client, c) then 1 else 0
    decreases |steps|
  {
    if steps != [] {
      var n := |steps| - 1;
      PrefixIsRun(unpack, worlds, steps, n);
      EndsExactlyOnce(unpack, worlds[..n + 1], steps[..n], c);
      RunKeepsInv(unpack, worlds, steps, n);
      LastStepEnds(unpack, worlds[n], steps[n], c);
    }
  }

  lemma PrefixIsRun(unpack: Unpack, worlds: seq<World>, steps: seq<Step>, n: nat)
    requires IsRun(unpack, worlds, steps) && n <= |steps|
    ensures IsRun(unpack, worlds[..n + 1], steps[..n])
  {
  }

  lemma LastStepEnds(unpack: Unpack, w: World, step: Step, c: CallId)
    requires Inv(unpack, w) && Enabled(w, step)
    ensures HasEnded(Next(unpack, w, step).client, c) <==> HasEnded(w.client, c) || EndsCall(step, c)
    ensures !(HasEnded(w.client, c) && EndsCall(step, c))
  {
    if HasEnded(w.client, c) {
      EndedIsFrozen(unpack, w, step, c);
    } else {
      EndsNow(unpack, w, step, c);
    }
  }

  lemma EndsNow(unpack: Unpack, w: World, step: Step, c: CallId)
    requires Inv(unpack, w) && Enabled(w, step) && !HasEnded(w.client, c)
    ensures HasEnded(Next(unpack, w, step).client, c) <==> EndsCall(step, c)
  {
  }

  /** The steps a call can always take by itself to come to an end. */
  function WayOut(phase: Phase, c: CallId): seq<Step> {
    match phase
    case Sending => [DoSendOk(c), DoExpire(c), DoCleanUp(c)]
    case Waiting => [DoExpire(c), DoCleanUp(c)]
    case Expiring => [DoCleanUp(c)]
    case Ended(_) => []
  }

  ghost predicate CanTake(unpack: Unpack, w: World, steps: seq<Step>, w': World)
    decreases |steps|
  {
    if steps == [] then w' == w
    else WellFormed(w.client) && Enabled(w, steps[0]) && CanTake(unpack, Next(unpack, w, steps[0]), steps[1..], w')
  }

  /** No call waits forever for somebody else: from every reachable state its
      own deadline leads to its end, and then its id is out of the table. */
  lemma CallCanAlwaysEnd(unpack: Unpack, w: World, c: CallId) returns (w': World)
    requires Inv(unpack, w) && c in w.client.calls
    ensures CanTake(unpack, w, WayOut(w.client.calls[c].phase, c), w')
    ensures Inv(unpack, w') && HasEnded(w'.client, c) && w'.client.calls[c].requestId !in w'.client.pending
    decreases |WayOut(w.client.calls[c].phase, c)|
  {
    var way := WayOut(w.client.calls[c].phase, c);
    if way == [] {
      w' := w;
      EntryLeadsBack(w.client, c);
    } else {
      InvStep(unpack, w, way[0]);
      assert way[1..] == WayOut(Next(unpack, w, way[0]).client.calls[c].phase, c);
      w' := CallCanAlwaysEnd(unpack, Next(unpack, w, way[0]), c);
    }
  }

  /** Freshness is needed. If a second call reuses the id of one still
      waiting, no response ever completes the first, and when the first times
      out its cleanup also removes the second call's entry. */
  lemma ReusedIdBreaksCorrelation(unpack: Unpack, s: State, c1: CallId, c2: CallId, e: Wire.Envelope)
    requires TableOk(s) && c1 in s.calls && s.calls[c1].phase.Waiting? && s.calls[c1].future.Pending? && c2 !in s.calls
    ensures var id := s.calls[c1].requestId;
            var s1 := Begin(s, c2, id);
            var s2 := CleanUp(Expire(s1, c1), c1);
            && WellFormed(s1) && Receive(unpack, s1, e).calls[c1] == s.calls[c1]
            && s2.calls[c2] == Call(id, Pending, Sending) && id !in s2.pending
            && WellFormed(s2) && Receive(unpack, s2, e).calls[c2] == s2.calls[c2]
  {
    var id := s.calls[c1].requestId;
    var s1 := Begin(s, c2, id);
    forall i | i in s1.pending && i != id ensures s1.pending[i] != c1 {
      assert s.calls[s.pending[i]].requestId == i;
    }
    var s2 := CleanUp(Expire(s1, c1), c1);
    forall i | i in s2.pending ensures s2.pending[i] != c2 {
      assert s.pending[i] in s.calls;
    }
  }
}
