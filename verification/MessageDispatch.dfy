/** Handler dispatch of src/styrened/protocols/styrene.py. An internal handler
    runs first, outside any `try`. The dispatcher then iterates the live list
    of external handlers, so one that unregisters another while it runs shifts
    the list under the loop. */
module MessageDispatch {
  import opened Prelude
  import Wire = StyreneWire

  type Handler = nat

  /** `decode_payload`, with None where it raises PayloadDecodeError. */
  type Unpack = Bytes -> Option<Tree>

  const PING: Byte := 0x01
  const PONG: Byte := 0x02
  const STATUS_REQUEST: Byte := 0x10
  const CHAT: Byte := 0x20
  const ANNOUNCE: Byte := 0x30

  /** What becomes of the internal handler of a message. */
  datatype Internal = Absent | Returns | Raises

  /** The internal handlers only log. All of them catch payloads that do not
      decode, but the one for chats asks any decoded value for its "text",
      which only a mapping has. */
  function InternalHandler(unpack: Unpack, e: Wire.Envelope): Internal {
    if e.messageType == CHAT then
      var data := unpack(e.payload);
      if data.Some? && !data.value.Dict? then Raises else Returns
    else if e.messageType in {PING, PONG, STATUS_REQUEST, Wire.STATUS_RESPONSE, ANNOUNCE} then
      Returns
    else
      Absent
  }

  /** The envelope in the custom data of a message, if it has any that decodes. */
  function Received(data: Option<Bytes>): Option<Wire.Envelope> {
    if data.Some? && Wire.Decode(data.value).Ok? then Some(Wire.Decode(data.value).value) else None
  }

  /** How handlers behave when called: which handlers of the type being
      dispatched a handler unregisters, one after another, and whether it
      raises. */
  datatype Behaviour = Behaviour(unregisters: Handler -> seq<Handler>, raises: Handler -> bool)

  /** `list.remove`, with a missing element ignored. */
  function Remove(hs: seq<Handler>, h: Handler): (r: seq<Handler>)
    ensures |r| == if h in hs then |hs| - 1 else |hs|
  {
    if hs == [] then [] else if hs[0] == h then hs[1..] else [hs[0]] + Remove(hs[1..], h)
  }

  function RemoveAll(hs: seq<Handler>, xs: seq<Handler>): (r: seq<Handler>)
    ensures |r| <= |hs|
    decreases |xs|
  {
    if xs == [] then hs else RemoveAll(Remove(hs, xs[0]), xs[1..])
  }

  function AfterCall(b: Behaviour, hs: seq<Handler>, h: Handler): (r: seq<Handler>)
    ensures |r| <= |hs|
  {
    RemoveAll(hs, b.unregisters(h))
  }

  /** The handlers called, in order, by `for h in list` from position `i`. */
  function Calls(b: Behaviour, hs: seq<Handler>, i: nat): seq<Handler>
    decreases |hs| - i
  {
    if i >= |hs| then [] else [hs[i]] + Calls(b, AfterCall(b, hs, hs[i]), i + 1)
  }

  /** The list that is left afterwards. */
  function Left(b: Behaviour, hs: seq<Handler>, i: nat): seq<Handler>
    decreases |hs| - i
  {
    if i >= |hs| then hs else Left(b, AfterCall(b, hs, hs[i]), i + 1)
  }

  lemma OneCall(b: Behaviour, hs: seq<Handler>, i: nat)
    ensures i < |hs| ==> Calls(b, hs, i) == [hs[i]] + Calls(b, AfterCall(b, hs, hs[i]), i + 1)
                         && Left(b, hs, i) == Left(b, AfterCall(b, hs, hs[i]), i + 1)
    ensures i >= |hs| ==> Calls(b, hs, i) == [] && Left(b, hs, i) == hs
  {
  }

  /** The errors of the wire format. Construction has ValueErrors of its own, and
      decoding lets that of an oversized payload through. */
  predicate IsWireError(error: Wire.WireError) {
    error.InvalidPrefix? || error.UnsupportedVersion? || error.InvalidMessageType?
  }

  /** The external handlers a message is given to. */
  function Dispatched(internal: Internal, b: Behaviour, hs: seq<Handler>): seq<Handler> {
    if internal.Raises? then [] else Calls(b, hs, 0)
  }

  /** The list that is left after a message. */
  function Remaining(internal: Internal, b: Behaviour, hs: seq<Handler>): seq<Handler> {
    if internal.Raises? then hs else Left(b, hs, 0)
  }

  /** Some handler got through without raising. */
  predicate SomeSucceeds(b: Behaviour, called: seq<Handler>) {
    exists h :: h in called && !b.raises(h)
  }

  class StyreneProtocol {
    var handlers: map<int, seq<Handler>>
    var called: seq<Handler>
    var persisted: seq<Wire.Envelope>

    constructor ()
      ensures handlers == map[] && called == [] && persisted == []
    {
      handlers := map[];
      called := [];
      persisted := [];
    }

    function HandlersOf(messageType: int): seq<Handler>
      reads this
    {
      if messageType in handlers then handlers[messageType] else []
    }

    method RegisterHandler(messageType: int, h: Handler)
      modifies this`handlers
      ensures HandlersOf(messageType) == old(HandlersOf(messageType)) + [h]
      ensures forall t :: t != messageType ==> HandlersOf(t) == old(HandlersOf(t))
    {
      if messageType !in handlers {
        handlers := handlers[messageType := []];
      }
      handlers := handlers[messageType := handlers[messageType] + [h]];
    }

    method UnregisterHandler(messageType: int, h: Handler)
      modifies this`handlers
      ensures HandlersOf(messageType) == Remove(old(HandlersOf(messageType)), h)
      ensures forall t :: t != messageType ==> HandlersOf(t) == old(HandlersOf(t))
    {
      if messageType in handlers {
        handlers := handlers[messageType := Remove(handlers[messageType], h)];
      }
    }

    /** What a running handler does to the list. */
    method UnregisterEach(messageType: int, xs: seq<Handler>)
      modifies this`handlers
      ensures HandlersOf(messageType) == RemoveAll(old(HandlersOf(messageType)), xs)
      ensures forall t :: t != messageType ==> HandlersOf(t) == old(HandlersOf(t))
    {
      var i := 0;
      while i < |xs|
        invariant 0 <= i <= |xs|
        invariant RemoveAll(HandlersOf(messageType), xs[i..]) == RemoveAll(old(HandlersOf(messageType)), xs)
        invariant forall t :: t != messageType ==> HandlersOf(t) == old(HandlersOf(t))
      {
        assert xs[i..][0] == xs[i] && xs[i..][1..] == xs[i + 1..];
        UnregisterHandler(messageType, xs[i]);
        i := i + 1;
      }
    }

    /** `_dispatch_message`: an exception in one external handler does not keep
        the others from being called, one in the internal handler keeps them
        all and leaves the method. `called` logs the external calls. */
    method DispatchMessage(e: Wire.Envelope, unpack: Unpack, b: Behaviour) returns (handled: bool, raised: bool)
      modifies this`handlers, this`called
      ensures var internal, hs := InternalHandler(unpack, e), old(HandlersOf(e.messageType));
              && called == old(called) + Dispatched(internal, b, hs)
              && HandlersOf(e.messageType) == Remaining(internal, b, hs)
              && (raised <==> internal.Raises?)
              && (handled <==> internal.Returns? || exists h :: h in Dispatched(internal, b, hs) && !b.raises(h))
      ensures forall t :: t != e.messageType ==> HandlersOf(t) == old(HandlersOf(t))
    {
      hide Calls, Left, RemoveAll;
      var internal := InternalHandler(unpack, e);
      if internal.Raises? {
        return false, true;
      }
      handled, raised := internal.Returns?, false;
      var i := 0;
      ghost var made: seq<Handler> := [];
      while i < |HandlersOf(e.messageType)|
        invariant called == old(called) + made
        invariant made + Calls(b, HandlersOf(e.messageType), i) == Calls(b, old(HandlersOf(e.messageType)), 0)
        invariant Left(b, HandlersOf(e.messageType), i) == Left(b, old(HandlersOf(e.messageType)), 0)
        invariant forall t :: t != e.messageType ==> HandlersOf(t) == old(HandlersOf(t))
        invariant handled <==> internal.Returns? || SomeSucceeds(b, made)
        decreases |HandlersOf(e.messageType)| - i
      {
        var h := HandlersOf(e.messageType)[i];
        OneCall(b, HandlersOf(e.messageType), i);
        called := called + [h];
        made := made + [h];
        UnregisterEach(e.messageType, b.unregisters(h));
        if !b.raises(h) {
          handled := true;
        }
        i := i + 1;
      }
      OneCall(b, HandlersOf(e.messageType), i);
      assert made + [] == made;
    }

    /** `handle_message`: data that is missing or no envelope is dropped, and
        a message is stored after its dispatch, if that came to its end. Only
        the errors of the wire format are caught. */
    method HandleMessage(data: Option<Bytes>, unpack: Unpack, b: Behaviour) returns (raised: bool)
      modifies this
      ensures Received(data).None? ==>
                && handlers == old(handlers) && called == old(called) && persisted == old(persisted)
                && (raised <==> data.Some? && Wire.Decode(data.value) == Err(Wire.PayloadTooLarge))
      ensures Received(data).Some? ==>
                var e := Received(data).value;
                var internal, hs := InternalHandler(unpack, e), old(HandlersOf(e.messageType));
                && called == old(called) + Dispatched(internal, b, hs)
                && HandlersOf(e.messageType) == Remaining(internal, b, hs)
                && (forall t :: t != e.messageType ==> HandlersOf(t) == old(HandlersOf(t)))
                && (raised <==> internal.Raises?)
                && persisted == old(persisted) + if raised then [] else [e]
    {
      hide Calls, Left, RemoveAll, Dispatched, Remaining;
      if data.None? {
        return false;
      }
      var decoded := Wire.Decode(data.value);
      if decoded.Err? {
        Wire.RefusedIff(data.value);
        return !IsWireError(decoded.error);
      }
      var handled;
      handled, raised := DispatchMessage(decoded.value, unpack, b);
      if !raised {
        persisted := persisted + [decoded.value];
      }
    }
  }

  // -------------------------------------------------------------------- results

  lemma {:induction false} UndisturbedFrom(b: Behaviour, hs: seq<Handler>, i: nat)
    requires i <= |hs|
    requires forall j :: i <= j < |hs| ==> AfterCall(b, hs, hs[j]) == hs
    ensures Calls(b, hs, i) == hs[i..] && Left(b, hs, i) == hs
    decreases |hs| - i
  {
    if i < |hs| {
      UndisturbedFrom(b, hs, i + 1);
    }
  }

  /** A handler that leaves the list alone: nothing it unregisters is there. */
  predicate Harmless(b: Behaviour, hs: seq<Handler>, h: Handler) {
    forall x :: x in b.unregisters(h) ==> x !in hs
  }

  lemma {:induction false} RemoveAllShrinks(hs: seq<Handler>, xs: seq<Handler>)
    ensures (forall x :: x in xs ==> x !in hs) ==> RemoveAll(hs, xs) == hs
    ensures !(forall x :: x in xs ==> x !in hs) ==> |RemoveAll(hs, xs)| < |hs|
    decreases |xs|
  {
    if xs != [] {
      assert xs == [xs[0]] + xs[1..];
      RemoveAllShrinks(Remove(hs, xs[0]), xs[1..]);
      if xs[0] !in hs {
        RemoveAbsent(hs, xs[0]);
      }
    }
  }

  /** Which messages have an internal handler, and when it raises. */
  lemma InternalHandlers(unpack: Unpack, e: Wire.Envelope)
    ensures InternalHandler(unpack, e) == Absent <==> e.messageType !in {0x01, 0x02, 0x10, 0x11, 0x20, 0x30}
    ensures InternalHandler(unpack, e) == Raises <==>
              e.messageType == 0x20 && unpack(e.payload).Some? && !unpack(e.payload).value.Dict?
  {
  }

  /** If no handler changes the list, each is called exactly once, in the order
      of registration, whichever of them raise, unless the internal handler
      does: then none is called. All stay registered. */
  lemma EveryHandlerOnce(internal: Internal, b: Behaviour, hs: seq<Handler>)
    requires forall h :: h in hs ==> Harmless(b, hs, h)
    ensures Dispatched(internal, b, hs) == (if internal == Raises then [] else hs) && Remaining(internal, b, hs) == hs
  {
    hide Calls, Left, RemoveAll, Harmless;
    forall j | 0 <= j < |hs| ensures AfterCall(b, hs, hs[j]) == hs {
      HarmlessIff(b, hs, hs[j]);
      assert hs[j] in hs;
    }
    UndisturbedFrom(b, hs, 0);
  }

  lemma HarmlessIff(b: Behaviour, hs: seq<Handler>, h: Handler)
    ensures Harmless(b, hs, h) ==> AfterCall(b, hs, h) == hs
    ensures !Harmless(b, hs, h) ==> |AfterCall(b, hs, h)| < |hs|
  {
    RemoveAllShrinks(hs, b.unregisters(h));
  }

  lemma {:induction false} CallsBound(b: Behaviour, hs: seq<Handler>, i: nat)
    requires i <= |hs|
    ensures |Calls(b, hs, i)| <= |hs| - i
    decreases |hs| - i
  {
    if i < |hs| {
      hide Calls, Left, RemoveAll;
      var hs1 := AfterCall(b, hs, hs[i]);
      OneCall(b, hs, i);
      if i + 1 <= |hs1| {
        CallsBound(b, hs1, i + 1);
      } else {
        OneCall(b, hs1, i + 1);
      }
    }
  }

  lemma {:induction false} AllCalledFrom(b: Behaviour, hs: seq<Handler>, i: nat)
    requires i <= |hs|
    ensures Calls(b, hs, i) == hs[i..] <==> forall j :: i <= j < |hs| - 1 ==> Harmless(b, hs, hs[j])
    decreases |hs| - i
  {
    hide Calls, Left, RemoveAll, AfterCall, Harmless;
    OneCall(b, hs, i);
    if i < |hs| {
      var hs1 := AfterCall(b, hs, hs[i]);
      assert hs[i..] == [hs[i]] + hs[i + 1..];
      HarmlessIff(b, hs, hs[i]);
      if Harmless(b, hs, hs[i]) {
        AllCalledFrom(b, hs, i + 1);
      } else {
        OneCall(b, hs1, i + 1);
        if i + 1 <= |hs1| {
          CallsBound(b, hs1, i + 1);
        }
      }
      assert Calls(b, hs, i)[1..] == Calls(b, hs1, i + 1) && hs[i..][1..] == hs[i + 1..];
    }
  }

  /** Every registered handler is called exactly once, in the order of
      registration, exactly when the internal handler does not raise and no
      external one but the last unregisters one that is on the list, be it
      itself, an earlier or a later one. */
  lemma EveryHandlerOnceIff(internal: Internal, b: Behaviour, hs: seq<Handler>)
    ensures Dispatched(internal, b, hs) == hs <==>
            hs == [] || (!internal.Raises? && forall j :: 0 <= j < |hs| - 1 ==> Harmless(b, hs, hs[j]))
    ensures internal.Raises? ==> Remaining(internal, b, hs) == hs
  {
    AllCalledFrom(b, hs, 0);
    assert hs[0..] == hs;
  }

  /** From the wire to the handlers: an encoded envelope arrives as it was sent
      exactly in the versions the decoder supports, and then reaches every
      handler of its type exactly under the condition above. It is a chat
      with a payload other than a mapping whose internal handler raises. */
  lemma SentReachesHandlers(e: Wire.Envelope, unpack: Unpack, b: Behaviour, hs: seq<Handler>)
    requires Wire.Valid(e)
    ensures Received(Some(Wire.Encode(e))) == if Wire.Supported(e) then Some(e) else None
    ensures var noMapping := e.messageType == 0x20 && unpack(e.payload).Some? && !unpack(e.payload).value.Dict?;
            Dispatched(InternalHandler(unpack, e), b, hs) == hs <==>
            hs == [] || (!noMapping && forall j :: 0 <= j < |hs| - 1 ==> Harmless(b, hs, hs[j]))
  {
    Wire.DecodeEncode(e);
    hide Wire.Decode, Wire.Encode, Calls, Harmless;
    EveryHandlerOnceIff(InternalHandler(unpack, e), b, hs);
  }

  /** A chat whose payload is the number 5 reaches no handler at all, however
      well they behave. */
  lemma ChatWithoutMapping(unpack: Unpack, id: Bytes, hs: seq<Handler>)
    requires unpack([0x05]) == Some(Int(5)) && |id| == Wire.REQUEST_ID_LENGTH && hs != []
    ensures var e := Wire.Envelope(2, CHAT, [0x05], Some(id));
            var b := Behaviour(h => [], h => false);
            && Received(Some(Wire.Encode(e))) == Some(e)
            && (forall h :: h in hs ==> Harmless(b, hs, h))
            && Dispatched(InternalHandler(unpack, e), b, hs) == [] != hs
  {
  }

  lemma {:induction false} RemoveAbsent(hs: seq<Handler>, h: Handler)
    requires h !in hs
    ensures Remove(hs, h) == hs
  {
    if hs != [] {
      RemoveAbsent(hs[1..], h);
    }
  }

  lemma {:induction false} RemoveAt(hs: seq<Handler>, k: nat)
    requires k < |hs| && forall i :: 0 <= i < k ==> hs[i] != hs[k]
    ensures Remove(hs, hs[k]) == hs[..k] + hs[k + 1..]
  {
    if k > 0 {
      assert hs[1..][k - 1] == hs[k];
      RemoveAt(hs[1..], k - 1);
    }
  }

  lemma {:induction false} QuietUntil(b: Behaviour, hs: seq<Handler>, i: nat, k: nat)
    requires i <= k <= |hs|
    requires forall j :: i <= j < k ==> b.unregisters(hs[j]) == []
    ensures Calls(b, hs, i) == hs[i..k] + Calls(b, hs, k)
    ensures Left(b, hs, i) == Left(b, hs, k)
    decreases k - i
  {
    hide Calls, Left;
    if i < k {
      OneCall(b, hs, i);
      QuietUntil(b, hs, i + 1, k);
      assert hs[i..k] == [hs[i]] + hs[i + 1..k];
    }
  }

  /** A handler that unregisters itself while it runs takes its successor's
      turn away: everyone else is called, the handler after it is not. */
  lemma SelfRemovalSkipsNext(internal: Internal, b: Behaviour, hs: seq<Handler>, k: nat)
    requires !internal.Raises? && k < |hs| && forall i, j :: 0 <= i < j < |hs| ==> hs[i] != hs[j]
    requires b.unregisters(hs[k]) == [hs[k]]
    requires forall j :: 0 <= j < |hs| && j != k ==> b.unregisters(hs[j]) == []
    ensures Remaining(internal, b, hs) == hs[..k] + hs[k + 1..]
    ensures Dispatched(internal, b, hs) == if k + 1 < |hs| then hs[..k + 1] + hs[k + 2..] else hs
  {
    hide Calls, Left, Remove;
    var rest := hs[..k] + hs[k + 1..];
    QuietUntil(b, hs, 0, k);
    RemoveAt(hs, k);
    assert AfterCall(b, hs, hs[k]) == rest by {
      assert [hs[k]][1..] == [];
      assert RemoveAll(hs, [hs[k]]) == RemoveAll(Remove(hs, hs[k]), []);
    }
    OneCall(b, hs, k);
    OneCall(b, rest, k + 1);
    if k + 1 < |hs| {
      forall j | k + 1 <= j < |rest| ensures AfterCall(b, rest, rest[j]) == rest {
        assert rest[j] == hs[j + 1];
      }
      UndisturbedFrom(b, rest, k + 1);
      assert rest[k + 1..] == hs[k + 2..];
      assert hs[0..k] + [hs[k]] == hs[..k + 1];
    }
  }
}
