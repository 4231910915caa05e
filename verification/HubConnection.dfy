/** The hub connection of src/styrened/services/hub_connection.py: a state
    machine over connection attempts, path checks and clock ticks. Whether RNS
    has a path is an oracle's answer at each query. */
module HubConnection {
  import opened Hex
  import opened Prelude

  const PATH_CHECK_INTERVAL := 30.0

  datatype Status = DisabledStatus | Waiting | Connected | Disconnected

  datatype State = State(connected: bool, address: Option<string>, configured: bool, waitingSince: Option<real>,
                         announceInterval: int, lastPathCheck: real)

  const START := State(false, None, false, None, 3600, 0.0)

  // ----------------------------------------------------------------- operations

  /** A path query drops the connection when the path is gone. */
  function CheckPath(s: State, now: real, hasPath: bool): State
    requires s.address.Some?
  {
    if FromHex(s.address.value).Some? && hasPath then s.(lastPathCheck := now) else s.(connected := false)
  }

  predicate Due(s: State, now: real) {
    s.connected && s.address.Some? && now - s.lastPathCheck > PATH_CHECK_INTERVAL
  }

  /** Even reading `is_connected` may change the state. */
  function Poll(s: State, now: real, hasPath: bool): State {
    if Due(s, now) then CheckPath(s, now, hasPath) else s
  }

  predicate Alive(s: State) {
    s.connected && s.address.Some?
  }

  function Force(s: State, now: real, hasPath: bool): State {
    if Alive(s) then CheckPath(s, now, hasPath) else s
  }

  function StartWaiting(s: State, now: real): State {
    if !s.connected && s.address.Some? && s.address.value != "" then s.(waitingSince := Some(now)) else s
  }

  predicate Acceptable(address: string) {
    |address| == 32 && FromHex(address).Some?
  }

  function Connect(s: State, address: string, now: real, initialized: bool, hasPath: bool): State {
    if !initialized || !Acceptable(address) then s
    else if hasPath then s.(address := Some(address), connected := true, waitingSince := None)
    else StartWaiting(s.(address := Some(address), connected := false), now)
  }

  function Disconnect(s: State): State {
    s.(address := None, connected := false, waitingSince := None)
  }

  function Retry(s: State, now: real, initialized: bool, hasPath: bool): State {
    if s.address.None? || s.address.value == "" || s.connected then s
    else Connect(s, s.address.value, now, initialized, hasPath)
  }

  predicate WithinWindow(s: State, now: real) {
    s.waitingSince.None? || now - s.waitingSince.value < s.announceInterval as real
  }

  /** The status shown once the connection was polled. */
  function StatusOf(s: State, now: real): Status {
    if Alive(s) then Connected
    else if s.address.Some? && s.address.value != "" then (if WithinWindow(s, now) then Waiting else Disconnected)
    else if s.configured then Waiting
    else DisabledStatus
  }

  // -------------------------------------------------------------- runs in time

  /** `hops` says whether reporting the hop count succeeds. */
  datatype Event =
    | Tick(seconds: real)
    | DoConnect(target: string, initialized: bool, hasPath: bool, hops: bool)
    | DoRetry(initialized: bool, hasPath: bool, hops: bool)
    | DoDisconnect
    | ReadIsConnected(hasPath: bool)
    | ForcePathCheck(hasPath: bool)
    | BeginWaiting
    | SetConfigured(configured: bool)
    | SetInterval(interval: int)

  /** `observed` remembers when each address was last seen to have a path. */
  datatype World = World(s: State, now: real, observed: map<string, real>)

  /** The address an event asks the oracle about, if it does. */
  function Queried(w: World, e: Event): Option<string> {
    match e
    case DoConnect(target, initialized, _, _) => if initialized && Acceptable(target) then Some(target) else None
    case DoRetry(initialized, _, _) =>
      if w.s.connected || w.s.address.None? || !initialized || !Acceptable(w.s.address.value) then None
      else w.s.address
    case ReadIsConnected(_) => if Due(w.s, w.now) then w.s.address else None
    case ForcePathCheck(_) => if Alive(w.s) then w.s.address else None
    case _ => None
  }

  predicate Answer(e: Event) {
    match e
    case DoConnect(_, _, hasPath, _) => hasPath
    case DoRetry(_, hasPath, _) => hasPath
    case ReadIsConnected(hasPath) => hasPath
    case ForcePathCheck(hasPath) => hasPath
    case _ => false
  }

  function NextState(w: World, e: Event): State {
    match e
    case Tick(_) => w.s
    case DoConnect(target, initialized, hasPath, _) => Connect(w.s, target, w.now, initialized, hasPath)
    case DoRetry(initialized, hasPath, _) => Retry(w.s, w.now, initialized, hasPath)
    case DoDisconnect => Disconnect(w.s)
    case ReadIsConnected(hasPath) => Poll(w.s, w.now, hasPath)
    case ForcePathCheck(hasPath) => Force(w.s, w.now, hasPath)
    case BeginWaiting => StartWaiting(w.s, w.now)
    case SetConfigured(c) => w.s.(configured := c)
    case SetInterval(i) => w.s.(announceInterval := i)
  }

  /** The clock never runs backwards. */
  function Step(w: World, e: Event): World {
    var q := Queried(w, e);
    World(NextState(w, e), if e.Tick? && e.seconds > 0.0 then w.now + e.seconds else w.now,
          if q.Some? && Answer(e) then w.observed[q.value := w.now] else w.observed)
  }

  function Run(w: World, events: seq<Event>): World
    decreases |events|
  {
    if events == [] then w else Run(Step(w, events[0]), events[1..])
  }

  predicate Inv(w: World) {
    && 0.0 <= w.s.lastPathCheck <= w.now
    && (w.s.address.Some? ==> Acceptable(w.s.address.value))
    && (w.s.waitingSince.Some? ==> w.s.address.Some? && w.s.waitingSince.value <= w.now)
    && (w.s.connected ==>
          && w.s.address.Some? && w.s.waitingSince.None?
          && w.s.address.value in w.observed
          && w.s.lastPathCheck <= w.observed[w.s.address.value] <= w.now)
  }

  lemma StepKeepsInv(w: World, e: Event)
    requires Inv(w)
    ensures Inv(Step(w, e))
  {
    hide FromHex;
  }

  /** In every run: a connected hub has an address of 32 hexadecimal
      characters, no waiting timer runs beside a connection, and no timer runs
      without an address. */
  lemma {:induction false} RunKeepsInv(w: World, events: seq<Event>)
    requires Inv(w)
    ensures Inv(Run(w, events))
    decreases |events|
  {
    if events != [] {
      hide Inv;
      StepKeepsInv(w, events[0]);
      RunKeepsInv(Step(w, events[0]), events[1..]);
    }
  }

  lemma StartIsFine(now: real)
    requires now >= 0.0
    ensures Inv(World(START, now, map[]))
  {
  }

  /** Whenever `is_connected` answers true, the current hub was seen to have a
      path at most thirty seconds earlier, even though connecting does not
      reset the check timer and disconnecting keeps it. */
  lemma ConnectedMeansRecentPath(now: real, events: seq<Event>, hasPath: bool)
    requires now >= 0.0
    ensures var w := Run(World(START, now, map[]), events);
            var after := Step(w, ReadIsConnected(hasPath));
            Alive(after.s) ==>
              && after.s.address.value in after.observed
              && after.now - PATH_CHECK_INTERVAL <= after.observed[after.s.address.value] <= after.now
              && (hasPath || !Due(w.s, w.now))
  {
    hide FromHex, Acceptable, Run;
    var w := Run(World(START, now, map[]), events);
    StartIsFine(now);
    RunKeepsInv(World(START, now, map[]), events);
    StepKeepsInv(w, ReadIsConnected(hasPath));
  }

  /** Events after which the hub counts as sought again. */
  predicate Reconnects(e: Event) {
    e.DoConnect? || e.DoRetry? || e.DoDisconnect? || e.BeginWaiting?
  }

  /** A connection lost to a path check starts no waiting timer: until someone
      reconnects, disconnects or starts waiting, the status stays WAITING
      however long the hub is silent, never DISCONNECTED. */
  lemma {:induction false} LostPathStaysWaiting(w: World, events: seq<Event>)
    requires Inv(w) && !w.s.connected && w.s.address.Some? && w.s.waitingSince.None?
    requires forall e :: e in events ==> !Reconnects(e)
    ensures var after := Run(w, events);
            StatusOf(Poll(after.s, after.now, false), after.now) == Waiting
    decreases |events|
  {
    hide FromHex;
    if events != [] {
      assert !Reconnects(events[0]);
      StepKeepsInv(w, events[0]);
      LostPathStaysWaiting(Step(w, events[0]), events[1..]);
    }
  }

  /** The loss itself: a due poll of a connected hub without a path. */
  lemma LosingThePath(w: World)
    requires Inv(w) && Due(w.s, w.now)
    ensures var after := Step(w, ReadIsConnected(false));
            && Inv(after) && !after.s.connected && after.s.address == w.s.address && after.s.waitingSince.None?
            && StatusOf(after.s, after.now) == Waiting
  {
    hide FromHex;
    StepKeepsInv(w, ReadIsConnected(false));
  }

  /** DISCONNECTED is shown exactly when a waiting timer ran out. */
  lemma DisconnectedIff(w: World)
    requires Inv(w)
    ensures StatusOf(w.s, w.now) == Disconnected
            <==> w.s.waitingSince.Some? && w.now - w.s.waitingSince.value >= w.s.announceInterval as real
  {
    hide FromHex;
  }

  // ------------------------------------------------------------- field by field

  /** An attempt that RNS can make: on 32 characters that decode. */
  predicate Attempts(w: World, e: Event) {
    || (e.DoConnect? && e.initialized && |e.target| == 32 && FromHex(e.target).Some?)
    || (e.DoRetry? && e.initialized && !w.s.connected && w.s.address.Some?)
  }

  predicate Gains(w: World, e: Event) {
    Attempts(w, e) && e.hasPath
  }

  /** A check of the path, forced or thirty seconds after the last one. */
  predicate Checks(w: World, e: Event) {
    w.s.connected && (e.ForcePathCheck? || (e.ReadIsConnected? && w.now - w.s.lastPathCheck > 30.0))
  }

  predicate Loses(w: World, e: Event) {
    e.DoDisconnect? || ((Attempts(w, e) || Checks(w, e)) && !e.hasPath)
  }

  /** What each event does to each field. */
  lemma FieldByField(w: World, e: Event)
    requires Inv(w)
    ensures var s, s' := w.s, Step(w, e).s;
            && (s'.connected <==> Gains(w, e) || (s.connected && !Loses(w, e)))
            && s'.address == (if e.DoDisconnect? then None
                              else if Attempts(w, e) && e.DoConnect? then Some(e.target) else s.address)
            && s'.waitingSince == (if Gains(w, e) || e.DoDisconnect? then None
                                   else if Attempts(w, e) || (e.BeginWaiting? && !s.connected && s.address.Some?)
                                   then Some(w.now) else s.waitingSince)
            && s'.lastPathCheck == (if Checks(w, e) && e.hasPath then w.now else s.lastPathCheck)
            && s'.configured == (if e.SetConfigured? then e.configured else s.configured)
            && s'.announceInterval == (if e.SetInterval? then e.interval else s.announceInterval)
  {
    hide FromHex;
    assert w.s.address.Some? ==> Acceptable(w.s.address.value);
  }

  /** Only ticks move the clock, and never backwards. */
  lemma TicksMoveClock(w: World, e: Event)
    ensures Step(w, e).now == if e.Tick? && e.seconds > 0.0 then w.now + e.seconds else w.now
  {
  }

  function RunOf(now: real, events: seq<Event>): World {
    Run(World(START, now, map[]), events)
  }

  lemma {:induction false} RunAppend(w: World, a: seq<Event>, b: seq<Event>)
    ensures Run(w, a + b) == Run(Run(w, a), b)
    decreases |a|
  {
    if a == [] {
      assert a + b == b;
    } else {
      assert (a + b)[0] == a[0] && (a + b)[1..] == a[1..] + b;
      RunAppend(Step(w, a[0]), a[1..], b);
    }
  }

  /** Runs grow at the end. */
  lemma RunSnoc(now: real, events: seq<Event>, n: nat)
    requires now >= 0.0 && n < |events|
    ensures RunOf(now, events[..n + 1]) == Step(RunOf(now, events[..n]), events[n]) && Inv(RunOf(now, events[..n]))
  {
    var w := World(START, now, map[]);
    assert events[..n + 1] == events[..n] + [events[n]];
    RunAppend(w, events[..n], [events[n]]);
    assert [events[n]][1..] == [];
    StartIsFine(now);
    RunKeepsInv(w, events[..n]);
  }

  /** The hub sought after some events: the target of the last attempt to
      connect, unless a disconnect came later. */
  function Sought(events: seq<Event>): Option<string> {
    if events == [] then None
    else
      var e := events[|events| - 1];
      if e.DoDisconnect? then None
      else if e.DoConnect? && e.initialized && |e.target| == 32 && FromHex(e.target).Some? then Some(e.target)
      else Sought(events[..|events| - 1])
  }

  /** In every run the address is that of the hub sought. */
  lemma {:induction false} AddressIsSought(now: real, events: seq<Event>)
    requires now >= 0.0
    ensures RunOf(now, events).s.address == Sought(events)
    decreases |events|
  {
    hide Run, Step, Inv, FromHex;
    if events == [] {
      NothingHappened(now);
    } else {
      var n := |events| - 1;
      AddressIsSought(now, events[..n]);
      RunSnoc(now, events, n);
      FieldByField(RunOf(now, events[..n]), events[n]);
      assert events[..n + 1] == events;
    }
  }

  lemma NothingHappened(now: real)
    ensures RunOf(now, []) == World(State(false, None, false, None, 3600, 0.0), now, map[])
  {
  }

  /** In every run the hub is connected exactly when an attempt found a path
      and since then nothing has lost it: no disconnect, no attempt without a
      path, and no check that was due or forced and found none. */
  lemma {:induction false} ConnectedIff(now: real, events: seq<Event>)
    requires now >= 0.0
    ensures RunOf(now, events).s.connected <==>
              exists k :: 0 <= k < |events| && Gains(RunOf(now, events[..k]), events[k])
                          && forall j :: k < j < |events| ==> !Loses(RunOf(now, events[..j]), events[j])
    decreases |events|
  {
    hide RunOf, Step, Inv, Gains, Loses;
    if events == [] {
      NothingHappened(now);
    } else {
      var n := |events| - 1;
      var before := events[..n];
      ConnectedIff(now, before);
      RunSnoc(now, events, n);
      FieldByField(RunOf(now, before), events[n]);
      assert events[..n + 1] == events;
      assert forall k :: 0 <= k < n ==> before[k] == events[k] && before[..k] == events[..k];
      if RunOf(now, before).s.connected && !Loses(RunOf(now, before), events[n]) {
        var k :| 0 <= k < n && Gains(RunOf(now, before[..k]), before[k])
                 && forall j :: k < j < n ==> !Loses(RunOf(now, before[..j]), before[j]);
        assert Gains(RunOf(now, events[..k]), events[k]);
      }
    }
  }

  /** Which status is shown, once polled. */
  lemma StatusIff(w: World)
    requires Inv(w)
    ensures var s, status := w.s, StatusOf(w.s, w.now);
            && (status == Connected <==> s.connected)
            && (status == DisabledStatus <==> s.address.None? && !s.configured)
            && (status == Disconnected <==>
                  s.waitingSince.Some? && w.now - s.waitingSince.value >= s.announceInterval as real)
  {
    hide FromHex;
  }

  /** Between checks nobody is asked: within thirty seconds of a check that
      found a path, `is_connected` keeps its answer whatever has become of the
      path. */
  lemma CheckIsCached(w: World, wait: real, hasPath: bool)
    requires Inv(w) && w.s.connected && 0.0 < wait <= 30.0
    ensures var checked := Step(Step(w, ForcePathCheck(true)), Tick(wait));
            Step(checked, ReadIsConnected(hasPath)) == checked && Alive(checked.s)
  {
    hide FromHex;
  }

  // ----------------------------------------------------------------- the object

  class HubConnection {
    var connected: bool
    var address: Option<string>
    var configured: bool
    var waitingSince: Option<real>
    var announceInterval: int
    var lastPathCheck: real

    function Snapshot(): State
      reads this
    {
      State(connected, address, configured, waitingSince, announceInterval, lastPathCheck)
    }

    constructor ()
      ensures Snapshot() == START
    {
      connected, address, configured, waitingSince := false, None, false, None;
      announceInterval, lastPathCheck := 3600, 0.0;
    }

    method IsConnected(now: real, hasPath: bool) returns (r: bool)
      modifies this
      ensures Snapshot() == Poll(old(Snapshot()), now, hasPath)
      ensures r == Alive(Snapshot())
    {
      if !connected || address.None? {
        return false;
      }
      if now - lastPathCheck > PATH_CHECK_INTERVAL {
        if FromHex(address.value).None? || !hasPath {
          connected := false;
          return false;
        }
        lastPathCheck := now;
      }
      return true;
    }

    method ForceCheck(now: real, hasPath: bool) returns (r: bool)
      modifies this
      ensures Snapshot() == Force(old(Snapshot()), now, hasPath)
      ensures r == Alive(Snapshot())
    {
      if !connected || address.None? {
        return false;
      }
      if FromHex(address.value).None? || !hasPath {
        connected := false;
        return false;
      }
      lastPathCheck := now;
      return true;
    }

    method BeginWait(now: real)
      modifies this
      ensures Snapshot() == StartWaiting(old(Snapshot()), now)
    {
      if !connected && address.Some? && address.value != "" {
        waitingSince := Some(now);
      }
    }

    method GetStatus(now: real, hasPath: bool) returns (status: Status)
      modifies this
      ensures Snapshot() == Poll(old(Snapshot()), now, hasPath)
      ensures status == StatusOf(Snapshot(), now)
    {
      var alive := IsConnected(now, hasPath);
      if alive {
        return Connected;
      }
      if address.Some? && address.value != "" {
        return if WithinWindow(Snapshot(), now) then Waiting else Disconnected;
      }
      return if configured then Waiting else DisabledStatus;
    }

    /** Connecting can answer false and still leave the object connected, when
        only the closing hop-count query raises. */
    method Attempt(target: string, now: real, initialized: bool, hasPath: bool, hops: bool) returns (r: bool)
      modifies this
      ensures Snapshot() == Connect(old(Snapshot()), target, now, initialized, hasPath)
      ensures r <==> initialized && Acceptable(target) && hasPath && hops
      ensures r ==> Alive(Snapshot())
    {
      if !initialized || |target| != 32 {
        return false;
      }
      if FromHex(target).None? {
        return false;
      }
      if !hasPath {
        address := Some(target);
        connected := false;
        BeginWait(now);
        return false;
      }
      address := Some(target);
      connected := true;
      waitingSince := None;
      return hops;
    }

    method Drop()
      modifies this
      ensures Snapshot() == Disconnect(old(Snapshot()))
    {
      address := None;
      connected := false;
      waitingSince := None;
    }

    method RetryConnection(now: real, initialized: bool, hasPath: bool, hops: bool) returns (r: bool)
      modifies this
      ensures Snapshot() == Retry(old(Snapshot()), now, initialized, hasPath)
      ensures r ==> Alive(Snapshot()) || old(connected)
    {
      if address.None? || address.value == "" {
        return false;
      }
      if connected {
        return true;
      }
      r := Attempt(address.value, now, initialized, hasPath, hops);
    }
  }
}
