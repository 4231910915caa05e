/** The control client of src/styrened/ipc/client.py: a table of open requests
    that a receive loop answers, cancels on disconnect, and shares with the
    coroutines that time out. */
module ControlClient {
  import opened Prelude
  import Ipc = IpcProtocol

  type RequestId = Bytes
  type CallId = nat

  datatype Future = Pending | Resolved(msgType: Byte, payload: Ipc.Payload) | Cancelled

  /** How `_request` ends: with the response filed under its id (an ERROR
      response is then raised as such), or by one of the other exits. */
  datatype Outcome = Answered(msgType: Byte, payload: Ipc.Payload) | TimedOut | WriteFailed | WasCancelled

  datatype Phase = Writing | Waiting | Expiring | Ended(outcome: Outcome)

  datatype Call = Call(requestId: RequestId, future: Future, phase: Phase)

  type Event = (Byte, Ipc.Payload)

  datatype State = State(
    calls: map<CallId, Call>,
    pending: map<RequestId, CallId>,
    connected: bool,
    events: seq<Event>,
    reader: Ipc.Reader)

  const START: State := State(map[], map[], false, [], Ipc.START)

  predicate InPhase(s: State, c: CallId, p: Phase) {
    c in s.calls && s.calls[c].phase == p
  }

  predicate WellFormed(s: State) {
    forall id :: id in s.pending ==> s.pending[id] in s.calls
  }

  function SetCall(s: State, c: CallId, call: Call): State {
    s.(calls := s.calls[c := call])
  }

  function Pop(s: State, id: RequestId): State {
    s.(pending := s.pending - {id})
  }

  function Connect(s: State): State {
    if s.connected then s else s.(connected := true, reader := Ipc.START)
  }

  function Begin(s: State, c: CallId, id: RequestId): State {
    SetCall(s, c, Call(id, Pending, Writing)).(pending := s.pending[id := c])
  }

  function WriteFails(s: State, c: CallId): State
    requires c in s.calls
  {
    Pop(SetCall(s, c, s.calls[c].(phase := Ended(WriteFailed))), s.calls[c].requestId)
  }

  /** One frame of the receive loop: events go to the queue, anything else
      resolves the future that is popped under its id. */
  function OnFrame(s: State, f: Ipc.Frame): (r: State)
    requires WellFormed(s)
    ensures WellFormed(r) && r.calls.Keys == s.calls.Keys
  {
    if Ipc.IsEventType(f.msgType) then s.(events := s.events + [(f.msgType, f.payload)])
    else if f.requestId !in s.pending then s
    else
      var c := s.pending[f.requestId];
      var call := s.calls[c];
      var done := if call.future.Pending? then call.(future := Resolved(f.msgType, f.payload)) else call;
      Pop(SetCall(s, c, done), f.requestId)
  }

  function OnOutcome(s: State, o: Ipc.Outcome): (r: State)
    requires WellFormed(s)
    ensures WellFormed(r) && r.calls.Keys == s.calls.Keys
  {
    match o
    case Ok(f) => OnFrame(s, f)
    case Err(IndexError) => s.(connected := false)
    case Err(_) => s
  }

  function OnOutcomes(s: State, os: seq<Ipc.Outcome>): (r: State)
    requires WellFormed(s)
    ensures WellFormed(r) && r.calls.Keys == s.calls.Keys
    decreases |os|
  {
    if os == [] then s else OnOutcomes(OnOutcome(s, os[0]), os[1..])
  }

  /** Bytes arrive while the receive loop is running. */
  function OnBytes(codec: Ipc.Codec, s: State, chunk: Bytes): State
    requires WellFormed(s)
  {
    if !s.connected then s
    else
      var (reader, outcomes) := Ipc.Drain(codec, Ipc.Arrive(s.reader, chunk));
      OnOutcomes(s, outcomes).(reader := reader)
  }

  /** The daemon closes the connection: the loop ends, the table stays. */
  function OnClose(s: State): State {
    s.(connected := false)
  }

  /** The call's future is open and in the table. */
  predicate Cancels(s: State, c: CallId)
    requires c in s.calls
  {
    var call := s.calls[c];
    call.requestId in s.pending && s.pending[call.requestId] == c && call.future.Pending?
  }

  function CancelAll(s: State): map<CallId, Call> {
    map c | c in s.calls :: if Cancels(s, c) then s.calls[c].(future := Cancelled) else s.calls[c]
  }

  function Disconnect(s: State): State {
    s.(connected := false, calls := CancelAll(s), pending := map[])
  }

  function Expire(s: State, c: CallId): State
    requires c in s.calls
  {
    var call := s.calls[c];
    SetCall(s, c, call.(phase := Expiring, future := if call.future.Pending? then Cancelled else call.future))
  }

  function CleanUp(s: State, c: CallId): State
    requires c in s.calls
  {
    Pop(SetCall(s, c, s.calls[c].(phase := Ended(TimedOut))), s.calls[c].requestId)
  }

  function Resume(s: State, c: CallId): State
    requires c in s.calls
  {
    match s.calls[c].future
    case Pending => s
    case Resolved(t, p) => SetCall(s, c, s.calls[c].(phase := Ended(Answered(t, p))))
    case Cancelled => SetCall(s, c, s.calls[c].(phase := Ended(WasCancelled)))
  }

  // ---------------------------------------------------------------- the class

  class Client {
    var calls: map<CallId, Call>
    var pending: map<RequestId, CallId>
    var connected: bool
    var events: seq<Event>
    var reader: Ipc.Reader
    const codec: Ipc.Codec

    ghost function View(): State
      reads this
    {
      State(calls, pending, connected, events, reader)
    }

    constructor (codec: Ipc.Codec)
      ensures View() == START && this.codec == codec
    {
      calls, pending, connected, events, reader := map[], map[], false, [], Ipc.START;
      this.codec := codec;
    }

    /** Returns false where the source raises IPCConnectionError at once. */
    method StartRequest(c: CallId, id: RequestId) returns (ok: bool)
      requires c !in calls
      modifies this
      ensures ok == old(connected) && View() == if ok then Begin(old(View()), c, id) else old(View())
    {
      if !connected {
        return false;
      }
      calls := calls[c := Call(id, Pending, Writing)];
      pending := pending[id := c];
      return true;
    }

    method HandleFrame(f: Ipc.Frame)
      requires WellFormed(View())
      modifies this
      ensures View() == OnFrame(old(View()), f)
    {
      if Ipc.IsEventType(f.msgType) {
        events := events + [(f.msgType, f.payload)];
        return;
      }
      if f.requestId in pending {
        var c := pending[f.requestId];
        pending := pending - {f.requestId};
        if calls[c].future.Pending? {
          calls := calls[c := calls[c].(future := Resolved(f.msgType, f.payload))];
        } else {
          calls := calls[c := calls[c]];
        }
      }
    }

    /** The receive loop over the bytes that have arrived. */
    method Receive(chunk: Bytes)
      requires WellFormed(View()) && connected
      modifies this
      ensures View() == OnBytes(codec, old(View()), chunk)
    {
      var (next, outcomes) := Ipc.Drain(codec, Ipc.Arrive(reader, chunk));
      for i := 0 to |outcomes|
        invariant WellFormed(View())
        invariant OnOutcomes(View(), outcomes[i..]) == OnOutcomes(old(View()), outcomes)
      {
        assert outcomes[i..][0] == outcomes[i] && outcomes[i..][1..] == outcomes[i + 1..];
        match outcomes[i]
        case Ok(f) => HandleFrame(f);
        case Err(IndexError) => connected := false;
        case Err(_) =>
      }
      assert outcomes[|outcomes|..] == [];
      reader := next;
    }

    /** `disconnect`: cancel every open future of the table, then empty it. */
    method Close()
      requires TableOk(View())
      modifies this
      ensures View() == Disconnect(old(View()))
    {
      connected := false;
      var ids := pending.Keys;
      while ids != {}
        invariant ids <= pending.Keys && calls.Keys == old(calls).Keys
        invariant connected == false && pending == old(pending) && events == old(events) && reader == old(reader)
        invariant forall c {:trigger calls[c]} :: c in calls ==>
                    calls[c] == if Cancels(old(View()), c) && calls[c].requestId !in ids
                                then old(calls)[c].(future := Cancelled) else old(calls)[c]
        decreases ids
      {
        var id :| id in ids;
        ids := ids - {id};
        var c := pending[id];
        assert old(calls)[c].requestId == id;
        if calls[c].future.Pending? {
          calls := calls[c := calls[c].(future := Cancelled)];
        }
      }
      assert calls == CancelAll(old(View()));
      pending := map[];
    }
  }

  // --------------------------------------------------------------------- runs

  datatype Step =
    | DoConnect
    | DoBegin(c: CallId, id: RequestId)
    | DoWritten(c: CallId)
    | DoWriteFail(c: CallId)
    | DoBytes(chunk: Bytes)
    | DoClose
    | DoDisconnect
    | DoExpire(c: CallId)
    | DoCleanUp(c: CallId)
    | DoResume(c: CallId)

  predicate Enabled(s: State, step: Step) {
    match step
    case DoBegin(c, id) => s.connected && c !in s.calls && forall d :: d in s.calls ==> s.calls[d].requestId != id
    case DoWritten(c) => InPhase(s, c, Writing)
    case DoWriteFail(c) => InPhase(s, c, Writing)
    case DoExpire(c) => InPhase(s, c, Waiting)
    case DoCleanUp(c) => InPhase(s, c, Expiring)
    case DoResume(c) => InPhase(s, c, Waiting) && !s.calls[c].future.Pending?
    case _ => true
  }

  function Next(codec: Ipc.Codec, s: State, step: Step): State
    requires WellFormed(s) && Enabled(s, step)
  {
    match step
    case DoConnect => Connect(s)
    case DoBegin(c, id) => Begin(s, c, id)
    case DoWritten(c) => SetCall(s, c, s.calls[c].(phase := Waiting))
    case DoWriteFail(c) => WriteFails(s, c)
    case DoBytes(chunk) => OnBytes(codec, s, chunk)
    case DoClose => OnClose(s)
    case DoDisconnect => Disconnect(s)
    case DoExpire(c) => Expire(s, c)
    case DoCleanUp(c) => CleanUp(s, c)
    case DoResume(c) => Resume(s, c)
  }

  /** A call whose future may still be resolved through the table, or that
      `wait_for` cancelled and that has yet to clean up. */
  predicate Listed(call: Call) {
    || (call.future.Pending? && (call.phase.Writing? || call.phase.Waiting?))
    || (call.future.Cancelled? && call.phase.Expiring?)
  }

  ghost predicate TableOk(s: State) {
    && (forall id {:trigger s.pending[id]} :: id in s.pending ==>
          s.pending[id] in s.calls && s.calls[s.pending[id]].requestId == id && Listed(s.calls[s.pending[id]]))
    && (forall c {:trigger s.calls[c]} :: c in s.calls && s.calls[c].future.Pending? && !s.calls[c].phase.Ended? ==>
          s.calls[c].requestId in s.pending && s.pending[s.calls[c].requestId] == c)
  }

  ghost predicate CallOk(call: Call) {
    match call.phase
    case Ended(Answered(t, p)) => call.future == Resolved(t, p)
    case Ended(WasCancelled) => call.future == Cancelled
    case Ended(TimedOut) => !call.future.Pending?
    case Expiring => !call.future.Pending?
    case _ => true
  }

  ghost predicate IdsDistinct(s: State) {
    forall c, d {:trigger s.calls[c], s.calls[d]} ::
      c in s.calls && d in s.calls && s.calls[c].requestId == s.calls[d].requestId ==> c == d
  }

  ghost predicate Inv(s: State) {
    && TableOk(s)
    && IdsDistinct(s)
    && forall c {:trigger s.calls[c]} :: c in s.calls ==> CallOk(s.calls[c])
  }

  /** A step that changes one call, keeps its id, and keeps or drops its
      entry as the call's new standing requires. */
  lemma OneCallStep(s: State, s': State, c: CallId)
    requires Inv(s) && c in s.calls && c in s'.calls && s'.calls == s.calls[c := s'.calls[c]]
    requires s'.calls[c].requestId == s.calls[c].requestId && CallOk(s'.calls[c])
    requires s'.pending == if Listed(s'.calls[c]) then s.pending else s.pending - {s.calls[c].requestId}
    requires s'.calls[c].future.Pending? && !s'.calls[c].phase.Ended? ==>
               Listed(s'.calls[c]) && s.calls[c].future.Pending? && !s.calls[c].phase.Ended?
    ensures Inv(s')
  {
  }

  lemma EntryLeadsBack(s: State, c: CallId)
    requires Inv(s) && c in s.calls
    ensures forall id :: id in s.pending && (s.pending[id] == c || id == s.calls[c].requestId) ==>
              s.pending[id] == c && id == s.calls[c].requestId && Listed(s.calls[c])
  {
    forall id | id in s.pending
      ensures s.calls[s.pending[id]].requestId == id && Listed(s.calls[s.pending[id]])
    {
    }
  }

  lemma FrameKeepsInv(s: State, f: Ipc.Frame)
    requires Inv(s)
    ensures Inv(OnFrame(s, f))
  {
    if !Ipc.IsEventType(f.msgType) && f.requestId in s.pending {
      var c := s.pending[f.requestId];
      EntryLeadsBack(s, c);
      var s' := OnFrame(s, f);
      if s.calls[c].future.Pending? {
        OneCallStep(s, s', c);
      } else {
        assert s'.calls == s.calls;
        DropEntry(s, s', c);
      }
    }
  }

  lemma DropEntry(s: State, s': State, c: CallId)
    requires Inv(s) && c in s.calls && !s.calls[c].future.Pending?
    requires s'.calls == s.calls && s'.pending == s.pending - {s.calls[c].requestId}
    ensures Inv(s')
  {
    forall d {:trigger s'.calls[d]} | d in s'.calls && s'.calls[d].future.Pending? && !s'.calls[d].phase.Ended?
      ensures s'.calls[d].requestId in s'.pending && s'.pending[s'.calls[d].requestId] == d
    {
      assert s.calls[d].requestId in s.pending;
    }
  }

  lemma {:induction false} OutcomesKeepInv(s: State, os: seq<Ipc.Outcome>)
    requires Inv(s)
    ensures WellFormed(s) && Inv(OnOutcomes(s, os))
    decreases |os|
  {
    if os != [] {
      if os[0].Ok? {
        FrameKeepsInv(s, os[0].value);
      }
      OutcomesKeepInv(OnOutcome(s, os[0]), os[1..]);
    }
  }

  lemma BeginKeepsInv(s: State, c: CallId, id: RequestId)
    requires Inv(s) && Enabled(s, DoBegin(c, id))
    ensures Inv(Begin(s, c, id))
  {
    forall i | i in s.pending ensures i != id {
      assert s.calls[s.pending[i]].requestId == i;
    }
  }

  lemma DisconnectKeepsInv(s: State)
    requires Inv(s)
    ensures Inv(Disconnect(s))
  {
    var s' := Disconnect(s);
    forall c {:trigger s'.calls[c]} | c in s'.calls
      ensures CallOk(s'.calls[c]) && (s'.calls[c].future.Pending? ==> s'.calls[c].phase.Ended?)
    {
      assert CallOk(s.calls[c]);
    }
    forall c, d {:trigger s'.calls[c], s'.calls[d]}
           | c in s'.calls && d in s'.calls && s'.calls[c].requestId == s'.calls[d].requestId
      ensures c == d
    {
      assert s.calls[c].requestId == s.calls[d].requestId;
    }
  }

  lemma InvStep(codec: Ipc.Codec, s: State, step: Step)
    requires Inv(s) && Enabled(s, step)
    ensures WellFormed(s) && Inv(Next(codec, s, step))
  {
    match step
    case DoConnect =>
    case DoClose =>
    case DoBegin(c, id) => BeginKeepsInv(s, c, id);
    case DoDisconnect => DisconnectKeepsInv(s);
    case DoBytes(chunk) => OutcomesKeepInv(s, Ipc.Drain(codec, Ipc.Arrive(s.reader, chunk)).1);
    case DoWritten(c) => CallStep(codec, s, step, c);
    case DoWriteFail(c) => CallStep(codec, s, step, c);
    case DoExpire(c) => CallStep(codec, s, step, c);
    case DoCleanUp(c) => CallStep(codec, s, step, c);
    case DoResume(c) => CallStep(codec, s, step, c);
  }

  lemma CallStep(codec: Ipc.Codec, s: State, step: Step, c: CallId)
    requires Inv(s) && Enabled(s, step)
    requires step in {DoWritten(c), DoWriteFail(c), DoExpire(c), DoCleanUp(c), DoResume(c)}
    ensures WellFormed(s) && Inv(Next(codec, s, step))
  {
    EntryLeadsBack(s, c);
    var s' := Next(codec, s, step);
    assert CallOk(s.calls[c]);
    assert s'.pending == if Listed(s'.calls[c]) then s.pending else s.pending - {s.calls[c].requestId};
    OneCallStep(s, s', c);
  }

  ghost predicate IsRun(codec: Ipc.Codec, states: seq<State>, steps: seq<Step>) {
    && |states| == |steps| + 1
    && states[0] == START
    && forall i :: 0 <= i < |steps| ==>
         WellFormed(states[i]) && Enabled(states[i], steps[i]) && states[i + 1] == Next(codec, states[i], steps[i])
  }

  lemma {:induction false} RunKeepsInv(codec: Ipc.Codec, states: seq<State>, steps: seq<Step>, i: nat)
    requires IsRun(codec, states, steps) && i < |states|
    ensures Inv(states[i])
  {
    if i > 0 {
      RunKeepsInv(codec, states, steps, i - 1);
      InvStep(codec, states[i - 1], steps[i - 1]);
    }
  }

  // ------------------------------------------------------------ what runs keep

  datatype Fate = IsAnswered | IsTimedOut | IsWriteFailed | IsCancelled | IsPending

  function FateOf(call: Call): Fate {
    match call.phase
    case Ended(Answered(_, _)) => IsAnswered
    case Ended(TimedOut) => IsTimedOut
    case Ended(WriteFailed) => IsWriteFailed
    case Ended(WasCancelled) => IsCancelled
    case _ => IsPending
  }

  function IdsSent(s: State): set<RequestId> {
    set c | c in s.calls :: s.calls[c].requestId
  }

  function IdsWith(s: State, fate: Fate): set<RequestId> {
    set c | c in s.calls && FateOf(s.calls[c]) == fate :: s.calls[c].requestId
  }

  /** In every run the ids sent split, without overlap, into answered, timed
      out, write-failed, cancelled and pending; each fate is that of the ending
      step taken for the call and fits its future, and the table lists only
      pending ones. */
  lemma IdsSplitByFate(codec: Ipc.Codec, states: seq<State>, steps: seq<Step>, i: nat)
    requires IsRun(codec, states, steps) && i < |states|
    ensures var s := states[i];
            && IdsSent(s) == IdsWith(s, IsAnswered) + IdsWith(s, IsTimedOut) + IdsWith(s, IsWriteFailed)
                             + IdsWith(s, IsCancelled) + IdsWith(s, IsPending)
            && (forall f, g :: f != g ==> IdsWith(s, f) !! IdsWith(s, g))
            && |IdsSent(s)| == |s.calls|
            && s.pending.Keys <= IdsWith(s, IsPending)
            && (forall c :: c in s.calls && FateOf(s.calls[c]) == IsAnswered ==> s.calls[c].future.Resolved?)
            && (forall c :: c in s.calls && FateOf(s.calls[c]) == IsCancelled ==> s.calls[c].future.Cancelled?)
            && (forall c :: FateShows(s, steps[..i], c))
  {
    RunKeepsInv(codec, states, steps, i);
    PrefixIsRun(codec, states, steps, i);
    forall c ensures FateShows(states[i], steps[..i], c) {
      EndsExactlyOnce(codec, states[..i + 1], steps[..i], c);
    }
    FatesPartition(states[i]);
    FatesFit(states[i]);
    IdsCount(states[i]);
  }

  lemma FatesPartition(s: State)
    requires IdsDistinct(s)
    ensures IdsSent(s) == IdsWith(s, IsAnswered) + IdsWith(s, IsTimedOut) + IdsWith(s, IsWriteFailed)
                          + IdsWith(s, IsCancelled) + IdsWith(s, IsPending)
    ensures forall f, g :: f != g ==> IdsWith(s, f) !! IdsWith(s, g)
  {
    forall id | id in IdsSent(s)
      ensures id in IdsWith(s, IsAnswered) + IdsWith(s, IsTimedOut) + IdsWith(s, IsWriteFailed)
                    + IdsWith(s, IsCancelled) + IdsWith(s, IsPending)
    {
      var c :| c in s.calls && s.calls[c].requestId == id;
      assert id in IdsWith(s, FateOf(s.calls[c]));
    }
  }

  lemma FatesFit(s: State)
    requires Inv(s)
    ensures s.pending.Keys <= IdsWith(s, IsPending)
    ensures forall c {:trigger s.calls[c]} :: c in s.calls && FateOf(s.calls[c]) == IsAnswered ==>
              s.calls[c].future.Resolved?
    ensures forall c {:trigger s.calls[c]} :: c in s.calls && FateOf(s.calls[c]) == IsCancelled ==>
              s.calls[c].future.Cancelled?
  {
    forall id | id in s.pending ensures id in IdsWith(s, IsPending) {
      assert Listed(s.calls[s.pending[id]]);
    }
  }

  lemma IdsCount(s: State)
    requires IdsDistinct(s)
    ensures |IdsSent(s)| == |s.calls|
  {
    var idOf := map c | c in s.calls :: s.calls[c].requestId;
    assert idOf.Keys == s.calls.Keys;
    assert |idOf| == |idOf.Keys| && |s.calls| == |s.calls.Keys|;
    forall a, b {:trigger idOf[a], idOf[b]} | a in idOf && b in idOf && idOf[a] == idOf[b] ensures a == b {
      assert s.calls[a].requestId == s.calls[b].requestId;
    }
    InjectiveImage(idOf);
    assert IdsSent(s) == idOf.Values;
  }

  /** The steps at which `_request` returns or raises. A call resumes only
      when its future is done, so every resumption ends it. */
  predicate EndsCall(step: Step, c: CallId) {
    step == DoWriteFail(c) || step == DoCleanUp(c) || step == DoResume(c)
  }

  function EndCount(steps: seq<Step>, c: CallId): nat {
    if steps == [] then 0
    else EndCount(steps[..|steps| - 1], c) + if EndsCall(steps[|steps| - 1], c) then 1 else 0
  }

  predicate HasEnded(s: State, c: CallId) {
    c in s.calls && s.calls[c].phase.Ended?
  }

  /** The ending that a step gives a call. */
  predicate Fits(step: Step, c: CallId, o: Outcome) {
    match o
    case WriteFailed => step == DoWriteFail(c)
    case TimedOut => step == DoCleanUp(c)
    case Answered(_, _) => step == DoResume(c)
    case WasCancelled => step == DoResume(c)
  }

  lemma OneStepEnds(codec: Ipc.Codec, s: State, step: Step, c: CallId)
    requires Inv(s) && WellFormed(s) && Enabled(s, step)
    ensures var s' := Next(codec, s, step);
            && (HasEnded(s', c) <==> HasEnded(s, c) || EndsCall(step, c))
            && !(HasEnded(s, c) && EndsCall(step, c))
            && (HasEnded(s, c) ==> s'.calls[c] == s.calls[c])
            && (EndsCall(step, c) ==> Fits(step, c, s'.calls[c].phase.outcome))
  {
    if c in s.calls {
      PhaseMoves(codec, s, step, c);
    }
  }

  lemma PhaseMoves(codec: Ipc.Codec, s: State, step: Step, c: CallId)
    requires Inv(s) && WellFormed(s) && Enabled(s, step) && c in s.calls
    ensures var s' := Next(codec, s, step);
            && c in s'.calls
            && (s.calls[c].phase.Ended? ==> s'.calls[c] == s.calls[c])
            && (!EndsCall(step, c) && !s.calls[c].phase.Ended? ==> !s'.calls[c].phase.Ended?)
  {
    CompletionIsFinal(codec, s, step, c);
    if step.DoBytes? {
      OutcomesKeepDone(s, Ipc.Drain(codec, Ipc.Arrive(s.reader, step.chunk)).1, c);
    }
  }

  lemma PrefixIsRun(codec: Ipc.Codec, states: seq<State>, steps: seq<Step>, n: nat)
    requires IsRun(codec, states, steps) && n <= |steps|
    ensures IsRun(codec, states[..n + 1], steps[..n])
  {
  }

  /** A call's fate is the ending step that was taken for it. */
  predicate FateShows(s: State, steps: seq<Step>, c: CallId) {
    && (DoWriteFail(c) in steps <==> c in s.calls && FateOf(s.calls[c]) == IsWriteFailed)
    && (DoCleanUp(c) in steps <==> c in s.calls && FateOf(s.calls[c]) == IsTimedOut)
    && (DoResume(c) in steps <==> c in s.calls && FateOf(s.calls[c]) in {IsAnswered, IsCancelled})
  }

  /** In every run each request ends at most once: it has ended exactly when
      one of its ending steps was taken, and its fate says which. */
  lemma {:induction false} EndsExactlyOnce(codec: Ipc.Codec, states: seq<State>, steps: seq<Step>, c: CallId)
    requires IsRun(codec, states, steps)
    ensures EndCount(steps, c) == if HasEnded(states[|steps|], c) then 1 else 0
    ensures FateShows(states[|steps|], steps, c)
    decreases |steps|
  {
    hide Enabled, Next, Inv, FateShows, EndsCall, HasEnded;
    if steps == [] {
      NobodyEndedAtStart(c);
    } else {
      var n := |steps| - 1;
      PrefixIsRun(codec, states, steps, n);
      EndsExactlyOnce(codec, states[..n + 1], steps[..n], c);
      RunKeepsInv(codec, states, steps, n);
      OneStepEnds(codec, states[n], steps[n], c);
      FateStep(codec, states[n], steps[..n], steps[n], c);
      assert steps == steps[..n] + [steps[n]];
    }
  }

  lemma NobodyEndedAtStart(c: CallId)
    ensures !HasEnded(START, c) && FateShows(START, [], c)
  {
  }

  lemma FateStep(codec: Ipc.Codec, s: State, before: seq<Step>, step: Step, c: CallId)
    requires Inv(s) && WellFormed(s) && Enabled(s, step) && FateShows(s, before, c)
    ensures FateShows(Next(codec, s, step), before + [step], c)
  {
    OneStepEnds(codec, s, step, c);
    hide Next, Enabled, Inv;
  }

  // ------------------------------------------------- where a completion came from

  /** The frame is among those decoded from the bytes that this step brought. */
  predicate Brings(codec: Ipc.Codec, s: State, step: Step, f: Ipc.Frame) {
    var ok: Ipc.Outcome := Ok(f);
    step.DoBytes? && s.connected && ok in Ipc.Drain(codec, Ipc.Arrive(s.reader, step.chunk)).1
  }

  lemma {:induction false} OutcomesResolve(s: State, os: seq<Ipc.Outcome>, c: CallId)
    requires Inv(s) && WellFormed(s) && c in s.calls
    ensures var future := OnOutcomes(s, os).calls[c].future;
            var ok: Ipc.Outcome :=
              if future.Resolved? then Ok(Ipc.Frame(future.msgType, s.calls[c].requestId, future.payload))
              else Err(Ipc.IndexError);
            future == s.calls[c].future || (future.Resolved? && !Ipc.IsEventType(future.msgType) && ok in os)
    decreases |os|
  {
    if os != [] {
      var s1 := OnOutcome(s, os[0]);
      if os[0].Ok? {
        FrameKeepsInv(s, os[0].value);
        if s1.calls[c] != s.calls[c] {
          FrameTouchesOwnCall(s, os[0].value, c);
        }
        FrameKeepsDone(s, os[0].value, c);
      }
      OutcomesResolve(s1, os[1..], c);
      if s1.calls[c].future != s.calls[c].future {
        OutcomesKeepDone(s1, os[1..], c);
      }
    }
  }

  /** The step completes a future the way the call has it. */
  predicate Completes(codec: Ipc.Codec, s: State, step: Step, c: CallId, call: Call) {
    match call.future
    case Pending => false
    case Resolved(t, p) => !Ipc.IsEventType(t) && Brings(codec, s, step, Ipc.Frame(t, call.requestId, p))
    case Cancelled => step == DoDisconnect || step == DoExpire(c)
  }

  lemma StepCompletes(codec: Ipc.Codec, s: State, step: Step, c: CallId)
    requires Inv(s) && WellFormed(s) && Enabled(s, step) && c in s.calls
    ensures c in Next(codec, s, step).calls
    ensures var call := Next(codec, s, step).calls[c];
            && call.requestId == s.calls[c].requestId
            && (call.future == s.calls[c].future || Completes(codec, s, step, c, call))
  {
    CompletionIsFinal(codec, s, step, c);
    if step.DoBytes? {
      OutcomesResolve(s, Ipc.Drain(codec, Ipc.Arrive(s.reader, step.chunk)).1, c);
    }
  }

  /** The step of a run at which a future was completed. */
  lemma {:induction false} CompletedAt(codec: Ipc.Codec, states: seq<State>, steps: seq<Step>, i: nat, c: CallId)
    returns (k: int)
    requires IsRun(codec, states, steps) && i < |states| && c in states[i].calls && !states[i].calls[c].future.Pending?
    ensures 0 <= k < i && Completes(codec, states[k], steps[k], c, states[i].calls[c])
    decreases i
  {
    hide Next, Enabled, Inv, Brings;
    k := i - 1;
    if i > 0 {
      RunKeepsInv(codec, states, steps, i - 1);
      var s, step := states[i - 1], steps[i - 1];
      if c in s.calls {
        StepCompletes(codec, s, step, c);
        if s.calls[c].future == states[i].calls[c].future {
          k := CompletedAt(codec, states, steps, i - 1, c);
        }
      } else {
        NewCallIsOpen(codec, s, step, c);
      }
    }
  }

  lemma NewCallIsOpen(codec: Ipc.Codec, s: State, step: Step, c: CallId)
    requires Inv(s) && WellFormed(s) && Enabled(s, step) && c !in s.calls && c in Next(codec, s, step).calls
    ensures Next(codec, s, step).calls[c].future.Pending?
  {
  }

  /** An answered request was resolved by a frame with its own id, of the type
      and payload it returns, decoded from bytes received in this run; a
      cancelled one by a `disconnect`. */
  lemma AnswerCameFromItsFrame(codec: Ipc.Codec, states: seq<State>, steps: seq<Step>, i: nat, c: CallId)
    requires IsRun(codec, states, steps) && i < |states| && HasEnded(states[i], c)
    ensures match states[i].calls[c].phase.outcome
            case Answered(t, p) =>
              && !Ipc.IsEventType(t)
              && exists k :: 0 <= k < i && Brings(codec, states[k], steps[k],
                   Ipc.Frame(t, states[i].calls[c].requestId, p))
            case WasCancelled => exists k :: 0 <= k < i && steps[k] == DoDisconnect
            case _ => true
  {
    RunKeepsInv(codec, states, steps, i);
    var o := states[i].calls[c].phase.outcome;
    assert CallOk(states[i].calls[c]);
    if o.Answered? {
      var k := CompletedAt(codec, states, steps, i, c);
    } else if o.WasCancelled? {
      CancelledByDisconnect(codec, states, steps, i, c);
    }
  }

  /** Cancelled, but not by its own deadline: that leaves a call expiring or
      timed out. */
  predicate CancelledFromOutside(s: State, c: CallId) {
    && c in s.calls && s.calls[c].future.Cancelled?
    && !s.calls[c].phase.Expiring? && s.calls[c].phase != Ended(TimedOut)
  }

  lemma OnlyDisconnectCancels(codec: Ipc.Codec, s: State, step: Step, c: CallId)
    requires Inv(s) && WellFormed(s) && Enabled(s, step) && CancelledFromOutside(Next(codec, s, step), c)
    ensures step == DoDisconnect || CancelledFromOutside(s, c)
  {
    hide Next, Enabled, Inv, Brings;
    if c !in s.calls {
      NewCallIsOpen(codec, s, step, c);
    } else {
      StepCompletes(codec, s, step, c);
      EarlierPhase(codec, s, step, c);
    }
  }

  lemma {:induction false} CancelledByDisconnect(codec: Ipc.Codec, states: seq<State>, steps: seq<Step>, i: nat,
      c: CallId)
    requires IsRun(codec, states, steps) && i < |states| && CancelledFromOutside(states[i], c)
    ensures exists k :: 0 <= k < i && steps[k] == DoDisconnect
    decreases i
  {
    hide Next, Enabled, Inv, CancelledFromOutside;
    if i == 0 {
      NobodyAtStart(c);
    } else {
      RunKeepsInv(codec, states, steps, i - 1);
      OnlyDisconnectCancels(codec, states[i - 1], steps[i - 1], c);
      if steps[i - 1] != DoDisconnect {
        CancelledByDisconnect(codec, states, steps, i - 1, c);
      }
    }
  }

  lemma NobodyAtStart(c: CallId)
    ensures !CancelledFromOutside(START, c)
  {
  }

  lemma EarlierPhase(codec: Ipc.Codec, s: State, step: Step, c: CallId)
    requires Inv(s) && WellFormed(s) && Enabled(s, step) && c in s.calls
    ensures c in Next(codec, s, step).calls
    ensures var before, after := s.calls[c].phase, Next(codec, s, step).calls[c].phase;
            && (before.Expiring? ==> after.Expiring? || after == Ended(TimedOut))
            && (before == Ended(TimedOut) ==> after == before)
            && (step == DoExpire(c) ==> after.Expiring?)
  {
    CompletionIsFinal(codec, s, step, c);
    if step.DoBytes? {
      OutcomesKeepDone(s, Ipc.Drain(codec, Ipc.Arrive(s.reader, step.chunk)).1, c);
    }
  }

  /** A frame completes only the open future filed under its own id, and an
      event frame never touches calls or table. */
  lemma FrameTouchesOwnCall(s: State, f: Ipc.Frame, c: CallId)
    requires Inv(s) && c in s.calls && OnFrame(s, f).calls[c] != s.calls[c]
    ensures f.requestId == s.calls[c].requestId && !Ipc.IsEventType(f.msgType)
    ensures s.calls[c].future.Pending? && OnFrame(s, f).calls[c]
              == s.calls[c].(future := Resolved(f.msgType, f.payload))
    ensures f.requestId in s.pending && f.requestId !in OnFrame(s, f).pending
  {
    EntryLeadsBack(s, c);
  }

  lemma EventsBypassTable(s: State, f: Ipc.Frame)
    requires WellFormed(s) && Ipc.KnownType(f.msgType) && !Ipc.IsRequestType(f.msgType) &&
              !Ipc.IsResponseType(f.msgType)
    ensures OnFrame(s, f) == s.(events := s.events + [(f.msgType, f.payload)])
  {
    Ipc.TypesPartition(f.msgType);
  }

  /** A future that has been resolved or cancelled never changes again, and
      neither does the outcome of a call that has ended. */
  lemma CompletionIsFinal(codec: Ipc.Codec, s: State, step: Step, c: CallId)
    requires Inv(s) && WellFormed(s) && Enabled(s, step) && c in s.calls
    ensures var s' := Next(codec, s, step);
            && c in s'.calls && s'.calls[c].requestId == s.calls[c].requestId
            && (!s.calls[c].future.Pending? ==> s'.calls[c].future == s.calls[c].future)
            && (s.calls[c].phase.Ended? ==> s'.calls[c] == s.calls[c])
  {
    EntryLeadsBack(s, c);
    if step.DoBytes? {
      OutcomesKeepDone(s, Ipc.Drain(codec, Ipc.Arrive(s.reader, step.chunk)).1, c);
    }
  }

  lemma {:induction false} OutcomesKeepDone(s: State, os: seq<Ipc.Outcome>, c: CallId)
    requires Inv(s) && WellFormed(s) && c in s.calls
    ensures var s' := OnOutcomes(s, os);
            && s'.calls[c].requestId == s.calls[c].requestId && s'.calls[c].phase == s.calls[c].phase
            && (!s.calls[c].future.Pending? || s.calls[c].phase.Ended? ==> s'.calls[c] == s.calls[c])
    decreases |os|
  {
    if os != [] {
      if os[0].Ok? {
        FrameKeepsInv(s, os[0].value);
        FrameKeepsDone(s, os[0].value, c);
      }
      OutcomesKeepDone(OnOutcome(s, os[0]), os[1..], c);
    }
  }

  lemma FrameKeepsDone(s: State, f: Ipc.Frame, c: CallId)
    requires Inv(s) && WellFormed(s) && c in s.calls
    ensures var s' := OnFrame(s, f);
            && s'.calls[c].requestId == s.calls[c].requestId && s'.calls[c].phase == s.calls[c].phase
            && (!s.calls[c].future.Pending? || s.calls[c].phase.Ended? ==> s'.calls[c] == s.calls[c])
  {
    if OnFrame(s, f).calls[c] != s.calls[c] {
      FrameTouchesOwnCall(s, f, c);
      EntryLeadsBack(s, c);
    }
  }

  /** A future nobody will ever complete: the write of its call has failed. */
  predicate Abandoned(s: State, c: CallId) {
    c in s.calls && s.calls[c].phase == Ended(WriteFailed) && s.calls[c].future.Pending?
  }

  /** The write of a call failed while its future was open. */
  predicate FailsOpen(s: State, step: Step, c: CallId) {
    step == DoWriteFail(c) && c in s.calls && s.calls[c].future.Pending?
  }

  lemma StepAbandons(codec: Ipc.Codec, s: State, step: Step, c: CallId)
    requires Inv(s) && WellFormed(s) && Enabled(s, step)
    ensures Abandoned(Next(codec, s, step), c) <==> Abandoned(s, c) || FailsOpen(s, step, c)
  {
    hide Inv, WellFormed;
    OneStepEnds(codec, s, step, c);
    if step != DoWriteFail(c) {
      hide Next;
    }
  }

  /** In every run the abandoned futures are those of the writes that failed
      while the future was open. */
  lemma {:induction false} AbandonedIff(codec: Ipc.Codec, states: seq<State>, steps: seq<Step>, i: nat, c: CallId)
    requires IsRun(codec, states, steps) && i < |states|
    ensures Abandoned(states[i], c) <==> exists k :: 0 <= k < i && FailsOpen(states[k], steps[k], c)
    decreases i
  {
    hide Next, Enabled, Inv, Abandoned, FailsOpen;
    if i == 0 {
      NothingAbandonedAtStart(c);
    } else {
      AbandonedIff(codec, states, steps, i - 1, c);
      RunKeepsInv(codec, states, steps, i - 1);
      StepAbandons(codec, states[i - 1], steps[i - 1], c);
    }
  }

  lemma NothingAbandonedAtStart(c: CallId)
    ensures !Abandoned(START, c)
  {
  }

  lemma DisconnectLeaves(s: State, c: CallId)
    requires Inv(s) && c in s.calls
    ensures Disconnect(s).calls[c].future.Pending? <==> Abandoned(s, c)
  {
    assert CallOk(s.calls[c]);
  }

  /** After `disconnect` the table is empty, and the futures still open are
      those abandoned before. So every future is done exactly when no write
      of the run failed while its future was open. */
  lemma DisconnectSettlesAll(codec: Ipc.Codec, states: seq<State>, steps: seq<Step>, i: nat)
    requires IsRun(codec, states, steps) && i < |steps| && steps[i] == DoDisconnect
    ensures var s, s' := states[i], states[i + 1];
            && s'.pending == map[] && !s'.connected && s'.calls.Keys == s.calls.Keys
            && (forall c {:trigger s'.calls[c]} :: c in s'.calls ==>
                  (s'.calls[c].future.Pending? <==> Abandoned(s, c)))
            && ((forall c {:trigger s'.calls[c]} :: c in s'.calls ==> !s'.calls[c].future.Pending?)
                <==> forall k, c :: 0 <= k < i ==> !FailsOpen(states[k], steps[k], c))
  {
    RunKeepsInv(codec, states, steps, i);
    var s, s' := states[i], states[i + 1];
    assert s' == Disconnect(s) && s'.calls.Keys == s.calls.Keys;
    hide IsRun, Inv, Next, Enabled, Disconnect, FailsOpen;
    forall c {:trigger s'.calls[c]} | c in s'.calls ensures s'.calls[c].future.Pending? <==> Abandoned(s, c) {
      DisconnectLeaves(s, c);
    }
    forall c ensures Abandoned(s, c) <==> exists k :: 0 <= k < i && FailsOpen(states[k], steps[k], c) {
      AbandonedIff(codec, states, steps, i, c);
    }
    if k, c :| 0 <= k < i && FailsOpen(states[k], steps[k], c) {
      assert Abandoned(s, c) && s'.calls[c].future.Pending?;
    }
  }

  /** However the daemon's bytes are chunked, the frame it sends in answer to
      an open request resolves that request's future with exactly the
      response it encoded, and leaves every other call alone. */
  lemma AnswerReachesItsCall(codec: Ipc.Codec, s: State, c: CallId, f: Ipc.Frame, chunks: seq<Bytes>)
    requires Inv(s) && WellFormed(s) && s.connected && s.reader == Ipc.START
    requires Ipc.Faithful(codec) && Ipc.Encodable(codec, f) && !Ipc.IsEventType(f.msgType)
    requires c in s.calls && f.requestId == s.calls[c].requestId && s.calls[c].phase.Waiting? &&
              s.calls[c].future.Pending?
    requires Ipc.Concat(chunks) == Ipc.Encoded(codec, f)
    ensures var s' := OnChunks(codec, s, chunks);
            && s'.calls == s.calls[c := s.calls[c].(future := Resolved(f.msgType, f.payload))]
            && s'.pending == s.pending - {f.requestId} && s'.reader == Ipc.START
  {
    assert Ipc.EncodeAll(codec, [f]) == Ipc.Encoded(codec, f) by {
      assert [f][1..] == [];
      assert Ipc.Encoded(codec, f) + [] == Ipc.Encoded(codec, f);
    }
    Ipc.StreamRoundTrip(codec, [f], chunks);
    assert Ipc.AllOk([f]) == [Ok(f)];
    ChunksAreOutcomes(codec, s, chunks);
    var o: Ipc.Outcome := Ok(f);
    assert OnOutcomes(s, [o]) == OnFrame(s, f);
  }

  // ------------------------------------------------------------- the connection

  /** The steps that end a connection: closing it from either side, and bytes
      with a frame that has not even a type. */
  predicate Ends(codec: Ipc.Codec, s: State, step: Step) {
    || step.DoClose? || step.DoDisconnect?
    || (step.DoBytes? && !NeverEmpty(Ipc.Drain(codec, Ipc.Arrive(s.reader, step.chunk)).1))
  }

  lemma {:induction false} EmptyFrameEnds(s: State, os: seq<Ipc.Outcome>)
    requires WellFormed(s)
    ensures OnOutcomes(s, os).connected <==> s.connected && NeverEmpty(os)
    decreases |os|
  {
    if os != [] {
      EmptyFrameEnds(OnOutcome(s, os[0]), os[1..]);
      assert NeverEmpty(os) <==> os[0] != Err(Ipc.IndexError) && NeverEmpty(os[1..]) by {
        if NeverEmpty(os[1..]) && os[0] != Err(Ipc.IndexError) {
          forall i | 0 <= i < |os| ensures os[i] != Err(Ipc.IndexError) {
            assert i > 0 ==> os[i] == os[1..][i - 1];
          }
        }
      }
    }
  }

  /** What each step does to the call it is about; the calls it is not about stay
      as they are, and only bytes and disconnecting are about them all. */
  lemma StepOnCall(codec: Ipc.Codec, s: State, step: Step, c: CallId)
    requires Inv(s) && WellFormed(s) && Enabled(s, step)
    ensures var s' := Next(codec, s, step);
            match step
            case DoBegin(d, id) =>
              && s'.calls[d] == Call(id, Pending, Writing) && id in s'.pending && s'.pending[id] == d
              && (c != d ==> (c in s'.calls <==> c in s.calls) && (c in s.calls ==> s'.calls[c] == s.calls[c]))
            case DoWritten(d) =>
              s'.calls == s.calls[d := s.calls[d].(phase := Waiting)] && s'.pending == s.pending
            case DoWriteFail(d) =>
              && s'.calls == s.calls[d := s.calls[d].(phase := Ended(WriteFailed))]
              && s.calls[d].requestId !in s'.pending
            case DoExpire(d) =>
              && s'.calls == s.calls[d := Call(s.calls[d].requestId, s'.calls[d].future, Expiring)]
              && s'.calls[d].future == (if s.calls[d].future == Pending then Cancelled else s.calls[d].future)
              && s'.pending == s.pending
            case DoCleanUp(d) =>
              && s'.calls == s.calls[d := s.calls[d].(phase := Ended(TimedOut))]
              && s.calls[d].requestId !in s'.pending
            case DoResume(d) =>
              s'.pending == s.pending && s'.calls == s.calls[d := s.calls[d].(phase :=
                Ended(if s.calls[d].future.Cancelled? then WasCancelled
                      else Answered(s.calls[d].future.msgType, s.calls[d].future.payload)))]
            case DoConnect => s' == if s.connected then s else s.(connected := true, reader := Ipc.START)
            case DoClose => s' == s.(connected := false)
            case DoDisconnect => s'.pending == map[] && s'.events == s.events
            case DoBytes(_) => s'.calls.Keys == s.calls.Keys
  {
  }

  lemma StepConnects(codec: Ipc.Codec, s: State, step: Step)
    requires WellFormed(s) && Enabled(s, step)
    ensures Next(codec, s, step).connected <==> step.DoConnect? || (s.connected && !Ends(codec, s, step))
    ensures step.DoConnect? && !s.connected ==> Next(codec, s, step).reader == Ipc.START
    ensures step.DoBytes? && !s.connected ==> Next(codec, s, step) == s
  {
    hide NeverEmpty;
    if step.DoBytes? {
      EmptyFrameEnds(s, Ipc.Drain(codec, Ipc.Arrive(s.reader, step.chunk)).1);
    }
  }

  /** In every run the client is connected exactly when it has connected and
      nothing has ended the connection since. */
  lemma {:induction false} ConnectedIff(codec: Ipc.Codec, states: seq<State>, steps: seq<Step>, i: nat)
    requires IsRun(codec, states, steps) && i < |states|
    ensures states[i].connected <==> exists k :: 0 <= k < i && steps[k] == DoConnect
                                                && forall j :: k < j < i ==> !Ends(codec, states[j], steps[j])
    decreases i
  {
    hide Next, Enabled, Ends;
    if i > 0 {
      ConnectedIff(codec, states, steps, i - 1);
      StepConnects(codec, states[i - 1], steps[i - 1]);
      if steps[i - 1] != DoConnect && !Ends(codec, states[i - 1], steps[i - 1]) && states[i - 1].connected {
        var k :| 0 <= k < i - 1 && steps[k] == DoConnect
                 && forall j :: k < j < i - 1 ==> !Ends(codec, states[j], steps[j]);
        assert forall j :: k < j < i ==> !Ends(codec, states[j], steps[j]);
      }
    }
  }

  /** The steps a call can always take by itself to come to an end. */
  function WayOut(phase: Phase, c: CallId): seq<Step> {
    match phase
    case Writing => [DoWritten(c), DoExpire(c), DoCleanUp(c)]
    case Waiting => [DoExpire(c), DoCleanUp(c)]
    case Expiring => [DoCleanUp(c)]
    case Ended(_) => []
  }

  predicate CanTake(codec: Ipc.Codec, s: State, steps: seq<Step>, s': State)
    decreases |steps|
  {
    if steps == [] then s' == s
    else WellFormed(s) && Enabled(s, steps[0]) && CanTake(codec, Next(codec, s, steps[0]), steps[1..], s')
  }

  /** From every reachable state a request's own deadline leads to its end, and
      its id is then out of the table. */
  lemma CallCanAlwaysEnd(codec: Ipc.Codec, s: State, c: CallId) returns (s': State)
    requires Inv(s) && c in s.calls
    ensures CanTake(codec, s, WayOut(s.calls[c].phase, c), s')
    ensures Inv(s') && HasEnded(s', c) && s'.calls[c].requestId !in s'.pending
    ensures !s.calls[c].phase.Ended? ==> s'.calls[c].phase == Ended(TimedOut)
    decreases |WayOut(s.calls[c].phase, c)|
  {
    var way := WayOut(s.calls[c].phase, c);
    if way == [] {
      s' := s;
      EntryLeadsBack(s, c);
    } else {
      InvStep(codec, s, way[0]);
      assert way[1..] == WayOut(Next(codec, s, way[0]).calls[c].phase, c);
      s' := CallCanAlwaysEnd(codec, Next(codec, s, way[0]), c);
    }
  }

  // ------------------------------------------------- streams of good and bad frames

  /** No frame announced a body of no bytes, which ends the loop. */
  predicate NeverEmpty(os: seq<Ipc.Outcome>) {
    forall i :: 0 <= i < |os| ==> os[i] != Err(Ipc.IndexError)
  }

  function Accepted(os: seq<Ipc.Outcome>): seq<Ipc.Frame> {
    if os == [] then [] else (if os[0].Ok? then [os[0].value] else []) + Accepted(os[1..])
  }

  function OnFrames(s: State, frames: seq<Ipc.Frame>): (r: State)
    requires WellFormed(s)
    ensures WellFormed(r) && r.calls.Keys == s.calls.Keys
    decreases |frames|
  {
    if frames == [] then s else OnFrames(OnFrame(s, frames[0]), frames[1..])
  }

  /** A rejected frame is skipped: the loop goes on and the accepted frames are
      handled as if it had not come. */
  lemma {:induction false} RejectedAreSkipped(s: State, os: seq<Ipc.Outcome>)
    requires WellFormed(s) && NeverEmpty(os)
    ensures OnOutcomes(s, os) == OnFrames(s, Accepted(os)) && OnOutcomes(s, os).connected == s.connected
    decreases |os|
  {
    if os != [] {
      var s1 := OnOutcome(s, os[0]);
      RejectedAreSkipped(s1, os[1..]);
      var rest := Accepted(os[1..]);
      assert Accepted(os) == if os[0].Ok? then [os[0].value] + rest else rest;
      assert os[0].Ok? ==> Accepted(os)[1..] == rest;
    }
  }

  /** The first frame in answer to an id. */
  function FirstAnswer(frames: seq<Ipc.Frame>, id: RequestId): Option<Ipc.Frame> {
    if frames == [] then None
    else if !Ipc.IsEventType(frames[0].msgType) && frames[0].requestId == id then Some(frames[0])
    else FirstAnswer(frames[1..], id)
  }

  function EventsOf(frames: seq<Ipc.Frame>): seq<Event> {
    if frames == [] then []
    else (if Ipc.IsEventType(frames[0].msgType) then [(frames[0].msgType, frames[0].payload)] else [])
         + EventsOf(frames[1..])
  }

  predicate IsOpen(call: Call) {
    call.future.Pending? && (call.phase.Writing? || call.phase.Waiting?)
  }

  /** What frames make of a call. */
  function AfterFrames(call: Call, frames: seq<Ipc.Frame>): Call {
    var first := FirstAnswer(frames, call.requestId);
    if IsOpen(call) && first.Some? then call.(future := Resolved(first.value.msgType, first.value.payload)) else call
  }

  lemma FrameOnCall(s: State, f: Ipc.Frame, c: CallId)
    requires Inv(s) && WellFormed(s) && c in s.calls
    ensures OnFrame(s, f).calls[c] == AfterFrames(s.calls[c], [f])
  {
    EntryLeadsBack(s, c);
    assert [f][1..] == [] && FirstAnswer([], s.calls[c].requestId) == None;
    if OnFrame(s, f).calls[c] != s.calls[c] {
      FrameTouchesOwnCall(s, f, c);
    }
  }

  lemma NothingArrived(call: Call)
    ensures AfterFrames(call, []) == call
  {
  }

  lemma OneByOne(call: Call, frames: seq<Ipc.Frame>)
    requires frames != []
    ensures AfterFrames(call, frames) == AfterFrames(AfterFrames(call, [frames[0]]), frames[1..])
  {
    assert [frames[0]][1..] == [] && FirstAnswer([], call.requestId) == None;
  }

  /** Each open request is resolved by the first frame with its id, and all
      other calls stay as they are. */
  lemma {:induction false} FramesOnCall(s: State, frames: seq<Ipc.Frame>, c: CallId)
    requires Inv(s) && WellFormed(s) && c in s.calls
    ensures OnFrames(s, frames).calls[c] == AfterFrames(s.calls[c], frames)
    decreases |frames|
  {
    hide Inv, OnFrame, FirstAnswer, AfterFrames;
    if frames == [] {
      NothingArrived(s.calls[c]);
    } else {
      FrameKeepsInv(s, frames[0]);
      FrameOnCall(s, frames[0], c);
      FramesOnCall(OnFrame(s, frames[0]), frames[1..], c);
      OneByOne(s.calls[c], frames);
    }
  }

  lemma FrameEvents(s: State, f: Ipc.Frame)
    requires WellFormed(s)
    ensures OnFrame(s, f).events == s.events + if Ipc.IsEventType(f.msgType) then [(f.msgType, f.payload)] else []
  {
  }

  lemma {:induction false} EventsInOrder(s: State, frames: seq<Ipc.Frame>)
    requires WellFormed(s)
    ensures OnFrames(s, frames).events == s.events + EventsOf(frames)
    decreases |frames|
  {
    if frames != [] {
      FrameEvents(s, frames[0]);
      hide OnFrame;
      EventsInOrder(OnFrame(s, frames[0]), frames[1..]);
      var now := if Ipc.IsEventType(frames[0].msgType) then [(frames[0].msgType, frames[0].payload)] else [];
      assert s.events + now + EventsOf(frames[1..]) == s.events + (now + EventsOf(frames[1..]));
    }
  }

  lemma {:induction false} BodiesNeverEmpty(codec: Ipc.Codec, bodies: seq<Bytes>)
    requires forall b :: b in bodies ==> Ipc.Sendable(b)
    ensures NeverEmpty(Ipc.ParseAll(codec, bodies))
  {
    if bodies != [] {
      BodiesNeverEmpty(codec, bodies[1..]);
    }
  }

  /** Whatever bodies the daemon sends, and however their bytes are chunked:
      the client stays connected with nothing left over, and each open request
      is resolved by the first accepted frame with its id, whether frames that
      are rejected come before it or not. */
  lemma StreamReachesCalls(codec: Ipc.Codec, s: State, bodies: seq<Bytes>, chunks: seq<Bytes>, c: CallId)
    requires Inv(s) && WellFormed(s) && s.connected && s.reader == Ipc.START && c in s.calls
    requires forall b :: b in bodies ==> Ipc.Sendable(b)
    requires Ipc.Concat(chunks) == Ipc.WrapAll(bodies)
    ensures var s', frames := OnChunks(codec, s, chunks), Accepted(Ipc.ParseAll(codec, bodies));
            && s'.connected && s'.reader == Ipc.START && s'.calls.Keys == s.calls.Keys
            && s'.calls[c] == AfterFrames(s.calls[c], frames)
            && s'.events == s.events + EventsOf(frames)
  {
    hide Inv, OnChunks, OnOutcomes, OnFrames, AfterFrames, Ipc.ParseBody;
    var outcomes := Ipc.ParseAll(codec, bodies);
    Ipc.StreamOfBodies(codec, bodies, chunks);
    BodiesNeverEmpty(codec, bodies);
    ChunksAreOutcomes(codec, s, chunks);
    RejectedAreSkipped(s, outcomes);
    FramesOnCall(s, Accepted(outcomes), c);
    EventsInOrder(s, Accepted(outcomes));
  }

  function OnChunks(codec: Ipc.Codec, s: State, chunks: seq<Bytes>): State
    requires WellFormed(s)
    decreases |chunks|
  {
    if chunks == [] then s else OnChunks(codec, OnBytes(codec, s, chunks[0]), chunks[1..])
  }

  lemma {:induction false} ChunksAreOutcomes(codec: Ipc.Codec, s: State, chunks: seq<Bytes>)
    requires WellFormed(s) && s.connected
    requires NeverEmpty(Ipc.FeedAll(codec, s.reader, chunks).1)
    ensures var (reader, outcomes) := Ipc.FeedAll(codec, s.reader, chunks);
            OnChunks(codec, s, chunks) == OnOutcomes(s, outcomes).(reader := reader)
    decreases |chunks|
  {
    if chunks != [] {
      var (next, out) := Ipc.Drain(codec, Ipc.Arrive(s.reader, chunks[0]));
      var (last, more) := Ipc.FeedAll(codec, next, chunks[1..]);
      var s1 := OnBytes(codec, s, chunks[0]);
      assert forall i :: 0 <= i < |out| ==> (out + more)[i] == out[i];
      assert forall i :: 0 <= i < |more| ==> (out + more)[|out| + i] == more[i];
      RejectedAreSkipped(s, out);
      ChunksAreOutcomes(codec, s1, chunks[1..]);
      OutcomesConcat(s, out, more);
      ReaderIsApart(OnOutcomes(s, out), more, next);
    }
  }

  lemma {:induction false} OutcomesConcat(s: State, xs: seq<Ipc.Outcome>, ys: seq<Ipc.Outcome>)
    requires WellFormed(s)
    ensures OnOutcomes(s, xs + ys) == OnOutcomes(OnOutcomes(s, xs), ys)
    decreases |xs|
  {
    if xs == [] {
      assert xs + ys == ys;
    } else {
      assert (xs + ys)[1..] == xs[1..] + ys;
      OutcomesConcat(OnOutcome(s, xs[0]), xs[1..], ys);
    }
  }

  lemma {:induction false} ReaderIsApart(s: State, os: seq<Ipc.Outcome>, r: Ipc.Reader)
    requires WellFormed(s)
    ensures OnOutcomes(s.(reader := r), os) == OnOutcomes(s, os).(reader := r)
    decreases |os|
  {
    if os != [] {
      assert OnOutcome(s.(reader := r), os[0]) == OnOutcome(s, os[0]).(reader := r);
      ReaderIsApart(OnOutcome(s, os[0]), os[1..], r);
    }
  }
}
