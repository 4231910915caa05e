/** The path-request limiter of src/styrened/services/rns_limits.py: its step
    on the table of last grants, the object that keeps the table, and how many
    requests it really lets through. */
module PathLimiter {

  const MIN_PATH_REQUEST_INTERVAL := 300.0
  const MAX_PATH_REQUESTS_PER_WINDOW := 30
  const PATH_REQUEST_WINDOW := 3600.0

  type Dest = string
  type Table = map<Dest, real>

  /** One call of `can_request_path`: a destination and the clock reading. */
  datatype Call = Call(dest: Dest, now: real)

  function Purge(t: Table, now: real): Table {
    map d | d in t && t[d] >= now - PATH_REQUEST_WINDOW :: t[d]
  }

  predicate Granted(t: Table, c: Call) {
    var p := Purge(t, c.now);
    && !(c.dest in p && c.now - p[c.dest] < MIN_PATH_REQUEST_INTERVAL)
    && |p| < MAX_PATH_REQUESTS_PER_WINDOW
  }

  function Step(t: Table, c: Call): Table {
    if Granted(t, c) then Purge(t, c.now)[c.dest := c.now] else Purge(t, c.now)
  }

  class PathRequestLimiter {
    var lastPathRequests: Table

    constructor ()
      ensures lastPathRequests == map[]
    {
      lastPathRequests := map[];
    }

    method CanRequestPath(dest: Dest, now: real) returns (ok: bool)
      modifies this
      ensures ok == Granted(old(lastPathRequests), Call(dest, now))
      ensures lastPathRequests == Step(old(lastPathRequests), Call(dest, now))
    {
      var cutoff := now - PATH_REQUEST_WINDOW;
      lastPathRequests := map d | d in lastPathRequests && lastPathRequests[d] >= cutoff :: lastPathRequests[d];
      if dest in lastPathRequests && now - lastPathRequests[dest] < MIN_PATH_REQUEST_INTERVAL {
        return false;
      }
      if |lastPathRequests| >= MAX_PATH_REQUESTS_PER_WINDOW {
        return false;
      }
      lastPathRequests := lastPathRequests[dest := now];
      return true;
    }

    /** `request_path_once`: the requests that reach the network are the
        granted ones. `issued` lists them in order. */
    method RequestPathOnce(dest: Dest, now: real, issued: seq<Call>) returns (ok: bool, issued': seq<Call>)
      modifies this
      ensures lastPathRequests == Step(old(lastPathRequests), Call(dest, now))
      ensures issued' == if ok then issued + [Call(dest, now)] else issued
      ensures ok == Granted(old(lastPathRequests), Call(dest, now))
    {
      issued' := issued;
      ok := CanRequestPath(dest, now);
      if ok {
        issued' := issued + [Call(dest, now)];
      }
    }
  }

  // --------------------------------------------------------------------- runs

  /** The table after a sequence of calls on an empty limiter. */
  function TableAfter(calls: seq<Call>): Table {
    if calls == [] then map[] else Step(TableAfter(calls[..|calls| - 1]), calls[|calls| - 1])
  }

  /** The calls that were granted, in order. */
  function Grants(calls: seq<Call>): seq<Call> {
    if calls == [] then []
    else
      var n := |calls| - 1;
      Grants(calls[..n]) + if Granted(TableAfter(calls[..n]), calls[n]) then [calls[n]] else []
  }

  predicate ClockOk(calls: seq<Call>) {
    forall i, j :: 0 <= i <= j < |calls| ==> calls[i].now <= calls[j].now
  }

  /** `g[k]` is the last grant to `d`. */
  predicate IsLastGrant(g: seq<Call>, d: Dest, k: int) {
    0 <= k < |g| && g[k].dest == d && forall j :: k < j < |g| ==> g[j].dest != d
  }

  /** The table holds every destination's last grant, as far as the last grant
      is not older than the window before `now`. */
  ghost predicate HoldsRecentGrants(t: Table, g: seq<Call>, now: real) {
    && (forall k {:trigger g[k]} ::
          0 <= k < |g| && IsLastGrant(g, g[k].dest, k) && g[k].now >= now - PATH_REQUEST_WINDOW ==>
            g[k].dest in t && t[g[k].dest] == g[k].now)
    && (forall d {:trigger t[d]} :: d in t ==>
          t[d] >= now - PATH_REQUEST_WINDOW && exists k :: IsLastGrant(g, d, k) && g[k].now == t[d])
  }

  predicate Spaced(g: seq<Call>) {
    forall i, j :: 0 <= i < j < |g| && g[i].dest == g[j].dest ==> g[j].now - g[i].now >= MIN_PATH_REQUEST_INTERVAL
  }

  lemma LastGrantExists(g: seq<Call>, i: nat) returns (k: nat)
    requires i < |g|
    ensures i <= k && IsLastGrant(g, g[i].dest, k)
    decreases |g| - i
  {
    if j :| i < j < |g| && g[j].dest == g[i].dest {
      k := LastGrantExists(g, j);
    } else {
      k := i;
    }
  }

  ghost predicate GoodHistory(t: Table, g: seq<Call>, now: real) {
    && HoldsRecentGrants(t, g, now)
    && Spaced(g) && ClockOk(g)
    && forall k :: 0 <= k < |g| ==> g[k].now <= now
  }

  /** After any sequence of calls under a clock that does not run backwards,
      the table is exactly the last grants of the past 3600 s, and grants to
      one destination are at least 300 s apart. */
  lemma {:induction false} TableIsRecentGrants(calls: seq<Call>)
    requires ClockOk(calls) && calls != []
    ensures GoodHistory(TableAfter(calls), Grants(calls), calls[|calls| - 1].now)
    decreases |calls|
  {
    hide Step, Granted, GoodHistory;
    var n := |calls| - 1;
    var earlier := if n > 0 then calls[n - 1].now else calls[0].now;
    if n > 0 {
      TableIsRecentGrants(calls[..n]);
      assert calls[..n][n - 1] == calls[n - 1];
    } else {
      assert TableAfter(calls[..n]) == map[] && Grants(calls[..n]) == [];
      EmptyHistory(earlier);
    }
    StepKeepsHistory(TableAfter(calls[..n]), Grants(calls[..n]), earlier, calls[n]);
  }

  lemma EmptyHistory(now: real)
    ensures GoodHistory(map[], [], now)
  {
  }

  lemma StepKeepsHistory(t: Table, g: seq<Call>, earlier: real, c: Call)
    requires GoodHistory(t, g, earlier) && earlier <= c.now
    ensures GoodHistory(Step(t, c), g + if Granted(t, c) then [c] else [], c.now)
  {
    PurgeKeepsRecent(t, g, earlier, c.now);
    if Granted(t, c) {
      hide Purge;
      GrantIsSpaced(Purge(t, c.now), g, c);
      GrantIsRecorded(Purge(t, c.now), g, c);
    } else {
      assert g + [] == g;
    }
  }

  lemma PurgeKeepsRecent(t: Table, g: seq<Call>, earlier: real, now: real)
    requires HoldsRecentGrants(t, g, earlier) && earlier <= now
    ensures HoldsRecentGrants(Purge(t, now), g, now)
  {
  }

  lemma LastGrantExtends(g: seq<Call>, c: Call, d: Dest, k: int)
    ensures IsLastGrant(g + [c], d, k) <==> if d == c.dest then k == |g| else IsLastGrant(g, d, k)
  {
    var g' := g + [c];
    assert g'[|g|] == c;
    assert forall j :: 0 <= j < |g| ==> g'[j] == g[j];
  }

  lemma GrantIsRecorded(p: Table, g: seq<Call>, c: Call)
    requires HoldsRecentGrants(p, g, c.now)
    ensures HoldsRecentGrants(p[c.dest := c.now], g + [c], c.now)
  {
    var g', t' := g + [c], p[c.dest := c.now];
    forall k {:trigger g'[k]} | 0 <= k < |g'| && IsLastGrant(g', g'[k].dest, k) &&
        g'[k].now >= c.now - PATH_REQUEST_WINDOW
      ensures g'[k].dest in t' && t'[g'[k].dest] == g'[k].now
    {
      LastGrantExtends(g, c, g'[k].dest, k);
      if k < |g| {
        assert g'[k] == g[k];
      }
    }
    forall d | d in t'
      ensures t'[d] >= c.now - PATH_REQUEST_WINDOW && exists k :: IsLastGrant(g', d, k) && g'[k].now == t'[d]
    {
      if d == c.dest {
        LastGrantExtends(g, c, d, |g|);
        assert g'[|g|].now == t'[d];
      } else {
        var k :| IsLastGrant(g, d, k) && g[k].now == p[d];
        LastGrantExtends(g, c, d, k);
        assert g'[k].now == t'[d];
      }
    }
  }

  lemma GrantIsSpaced(p: Table, g: seq<Call>, c: Call)
    requires GoodHistory(p, g, c.now)
    requires !(c.dest in p && c.now - p[c.dest] < MIN_PATH_REQUEST_INTERVAL)
    ensures Spaced(g + [c]) && ClockOk(g + [c])
  {
    forall i | 0 <= i < |g| && g[i].dest == c.dest
      ensures c.now - g[i].now >= MIN_PATH_REQUEST_INTERVAL
    {
      var k := LastGrantExists(g, i);
      assert g[i].now <= g[k].now;
      assert g[k].dest == c.dest;
    }
  }

  // ----------------------------------------------------------------- counting

  /** `c` falls in the closed window of 3600 s that starts at `a`. */
  predicate InWindow(c: Call, a: real) {
    a <= c.now <= a + PATH_REQUEST_WINDOW
  }

  /** The destinations granted in the window. */
  function DestsIn(g: seq<Call>, a: real): set<Dest> {
    set k | 0 <= k < |g| && InWindow(g[k], a) :: g[k].dest
  }

  /** How many grants in the window went to destinations of `among`. */
  function CountIn(g: seq<Call>, a: real, among: set<Dest>): nat {
    if g == [] then 0
    else
      var n := |g| - 1;
      CountIn(g[..n], a, among) + if InWindow(g[n], a) && g[n].dest in among then 1 else 0
  }

  /** At most 13 grants go to one destination: 3600 s hold 12 gaps of 300 s. */
  lemma {:induction false} OneDestCount(g: seq<Call>, a: real, d: Dest) returns (k: int)
    requires Spaced(g) && ClockOk(g)
    ensures CountIn(g, a, {d}) > 0 ==>
              && 0 <= k < |g| && g[k].dest == d && InWindow(g[k], a)
              && g[k].now - a >= MIN_PATH_REQUEST_INTERVAL * (CountIn(g, a, {d}) - 1) as real
    ensures CountIn(g, a, {d}) <= 13
    decreases |g|
  {
    k := -1;
    if g != [] {
      var n := |g| - 1;
      assert Spaced(g[..n]) && ClockOk(g[..n]);
      k := OneDestCount(g[..n], a, d);
      if InWindow(g[n], a) && g[n].dest == d {
        if CountIn(g[..n], a, {d}) > 0 {
          assert g[..n][k] == g[k];
        }
        k := n;
      }
    }
  }

  lemma {:induction false} CountSplits(g: seq<Call>, a: real, d: Dest, rest: set<Dest>)
    requires d !in rest
    ensures CountIn(g, a, rest + {d}) == CountIn(g, a, rest) + CountIn(g, a, {d})
    decreases |g|
  {
    if g != [] {
      CountSplits(g[..|g| - 1], a, d, rest);
    }
  }

  lemma {:induction false} ManyDestsCount(g: seq<Call>, a: real, among: set<Dest>)
    requires Spaced(g) && ClockOk(g)
    ensures CountIn(g, a, among) <= 13 * |among|
    decreases |among|
  {
    if among == {} {
      NoDestsCount(g, a);
    } else {
      var d :| d in among;
      var rest := among - {d};
      ManyDestsCount(g, a, rest);
      CountSplits(g, a, d, rest);
      var _ := OneDestCount(g, a, d);
      assert rest + {d} == among;
    }
  }

  lemma {:induction false} NoDestsCount(g: seq<Call>, a: real)
    ensures CountIn(g, a, {}) == 0
  {
    if g != [] {
      NoDestsCount(g[..|g| - 1], a);
    }
  }

  lemma {:induction false} CountWithin(g: seq<Call>, a: real, among: set<Dest>, more: set<Dest>)
    requires DestsIn(g, a) * more <= among <= more
    ensures CountIn(g, a, more) == CountIn(g, a, among)
    decreases |g|
  {
    if g != [] {
      var n := |g| - 1;
      assert forall k :: 0 <= k < n ==> g[..n][k] == g[k];
      assert DestsIn(g[..n], a) <= DestsIn(g, a);
      CountWithin(g[..n], a, among, more);
      if InWindow(g[n], a) {
        assert g[n].dest in DestsIn(g, a);
      }
    }
  }

  /** In every closed window of 3600 s at most 30 distinct destinations are
      granted, and at most 29 * 13 + 1 = 378 requests in all: the 30th
      destination closes the window with its first grant. */
  lemma {:induction false} WindowBudget(calls: seq<Call>, a: real)
    requires ClockOk(calls)
    ensures var g := Grants(calls);
            |DestsIn(g, a)| <= 30 && CountIn(g, a, DestsIn(g, a)) <= 378
    decreases |calls|
  {
    if calls != [] {
      hide Granted, TableAfter;
      var n := |calls| - 1;
      var g0, g := Grants(calls[..n]), Grants(calls);
      WindowBudget(calls[..n], a);
      if !Granted(TableAfter(calls[..n]), calls[n]) {
        assert g == g0;
      } else if InWindow(calls[n], a) {
        WindowClosedByGrant(calls, a);
      } else {
        OutsideGrant(g0, calls[n], a);
      }
    }
  }

  /** No destination is granted twice in the window. */
  predicate NoRepeatIn(g: seq<Call>, a: real) {
    forall i, j :: 0 <= i < j < |g| && InWindow(g[i], a) && InWindow(g[j], a) ==> g[i].dest != g[j].dest
  }

  lemma {:induction false} RepeatsExceed(g: seq<Call>, a: real)
    ensures CountIn(g, a, DestsIn(g, a)) >= |DestsIn(g, a)|
    ensures CountIn(g, a, DestsIn(g, a)) == |DestsIn(g, a)| <==> NoRepeatIn(g, a)
    decreases |g|
  {
    if g != [] {
      var n := |g| - 1;
      var g0, c := g[..n], g[n];
      assert g == g0 + [c];
      hide CountIn;
      RepeatsExceed(g0, a);
      RepeatSnoc(g0, c, a);
      if InWindow(c, a) {
        InsideGrant(g0, c, a);
      } else {
        OutsideGrant(g0, c, a);
      }
    } else {
      assert DestsIn(g, a) == {};
    }
  }

  lemma RepeatSnoc(g0: seq<Call>, c: Call, a: real)
    ensures NoRepeatIn(g0 + [c], a) <==> NoRepeatIn(g0, a) && (InWindow(c, a) ==> c.dest !in DestsIn(g0, a))
  {
    var g := g0 + [c];
    assert g[|g0|] == c && forall i :: 0 <= i < |g0| ==> g[i] == g0[i];
    if NoRepeatIn(g, a) {
      forall i, j | 0 <= i < j < |g0| && InWindow(g0[i], a) && InWindow(g0[j], a) ensures g0[i].dest != g0[j].dest {
        assert g[i].dest != g[j].dest;
      }
      if InWindow(c, a) {
        forall i | 0 <= i < |g0| && InWindow(g0[i], a) ensures g0[i].dest != c.dest {
          assert g[i].dest != g[|g0|].dest;
        }
      }
    }
  }

  /** The grants of a window are as many as its destinations exactly when none
      repeats, and are then within the 30 that the constant announces. */
  lemma ThirtyWithoutRepeats(calls: seq<Call>, a: real)
    requires ClockOk(calls)
    ensures var g := Grants(calls);
            && (CountIn(g, a, DestsIn(g, a)) == |DestsIn(g, a)| <==> NoRepeatIn(g, a))
            && (NoRepeatIn(g, a) ==> CountIn(g, a, DestsIn(g, a)) <= 30)
  {
    WindowBudget(calls, a);
    RepeatsExceed(Grants(calls), a);
  }

  lemma OutsideGrant(g0: seq<Call>, c: Call, a: real)
    requires !InWindow(c, a)
    ensures DestsIn(g0 + [c], a) == DestsIn(g0, a)
    ensures CountIn(g0 + [c], a, DestsIn(g0, a)) == CountIn(g0, a, DestsIn(g0, a))
  {
    var g := g0 + [c];
    assert g[..|g0|] == g0;
    assert forall k :: 0 <= k < |g0| ==> g[k] == g0[k];
  }

  lemma InsideGrant(g0: seq<Call>, c: Call, a: real)
    requires InWindow(c, a)
    ensures DestsIn(g0 + [c], a) == DestsIn(g0, a) + {c.dest}
    ensures CountIn(g0 + [c], a, DestsIn(g0 + [c], a)) == CountIn(g0, a, DestsIn(g0, a)) + 1
  {
    var g, keys := g0 + [c], DestsIn(g0, a);
    assert g[..|g0|] == g0 && g[|g0|] == c;
    assert forall k :: 0 <= k < |g0| ==> g[k] == g0[k];
    CountWithin(g0, a, keys, keys + {c.dest});
  }

  lemma WindowClosedByGrant(calls: seq<Call>, a: real)
    requires ClockOk(calls) && calls != []
    requires Granted(TableAfter(calls[..|calls| - 1]), calls[|calls| - 1]) && InWindow(calls[|calls| - 1], a)
    ensures var g := Grants(calls);
            |DestsIn(g, a)| <= 30 && CountIn(g, a, DestsIn(g, a)) <= 378
  {
    var n := |calls| - 1;
    var g0 := Grants(calls[..n]);
    var p := Purge(TableAfter(calls[..n]), calls[n].now);
    assert |p.Keys| <= 29;
    hide Purge, Granted, TableAfter;
    if n > 0 {
      TableIsRecentGrants(calls[..n]);
    } else {
      assert g0 == [];
    }
    RecentDestsAreKeys(calls, a);
    Subset(DestsIn(g0, a), p.Keys);
    InsideGrant(g0, calls[n], a);
    ManyDestsCount(g0, a, DestsIn(g0, a));
  }

  lemma RecentDestsAreKeys(calls: seq<Call>, a: real)
    requires ClockOk(calls) && calls != [] && InWindow(calls[|calls| - 1], a)
    ensures DestsIn(Grants(calls[..|calls| - 1]), a) <= Purge(TableAfter(calls[..|calls| - 1]),
              calls[|calls| - 1].now).Keys
  {
    var n := |calls| - 1;
    if n > 0 {
      var g0 := Grants(calls[..n]);
      TableIsRecentGrants(calls[..n]);
      forall i | 0 <= i < |g0| && InWindow(g0[i], a)
        ensures g0[i].dest in Purge(TableAfter(calls[..n]), calls[n].now)
      {
        var k := LastGrantExists(g0, i);
        assert g0[i].now <= g0[k].now;
        assert g0[k].dest == g0[i].dest;
      }
    }
  }

  lemma Subset<T>(s: set<T>, t: set<T>)
    requires s <= t
    ensures |s| <= |t|
  {
    assert t == s + (t - s);
  }

  // ------------------------------------------- the exact bound, by destinations

  /** All calls ask for destinations of `among`. */
  predicate AsksAmong(calls: seq<Call>, among: set<Dest>) {
    forall i :: 0 <= i < |calls| ==> calls[i].dest in among
  }

  /** The most grants an hour can see when so many destinations are asked for. */
  function Peak(destinations: nat): nat {
    if destinations <= 29 then 13 * destinations else 378
  }

  lemma {:induction false} GrantsAmong(calls: seq<Call>, among: set<Dest>)
    requires AsksAmong(calls, among)
    ensures AsksAmong(Grants(calls), among)
    decreases |calls|
  {
    hide Granted, TableAfter;
    if calls != [] {
      GrantsAmong(calls[..|calls| - 1], among);
    }
  }

  lemma PeakBounds(calls: seq<Call>, a: real, among: set<Dest>)
    requires ClockOk(calls) && AsksAmong(calls, among)
    ensures CountIn(Grants(calls), a, DestsIn(Grants(calls), a)) <= Peak(|among|)
  {
    hide Grants, CountIn, TableAfter;
    var g := Grants(calls);
    WindowBudget(calls, a);
    GrantsAmong(calls, among);
    Subset(DestsIn(g, a), among);
    if calls != [] {
      TableIsRecentGrants(calls);
      ManyDestsCount(g, a, DestsIn(g, a));
    } else {
      assert g == [] by {
        NothingGranted();
      }
      NothingCounted(a);
    }
  }

  lemma NothingGranted()
    ensures Grants([]) == []
  {
  }

  lemma NothingCounted(a: real)
    ensures CountIn([], a, DestsIn([], a)) == 0
  {
  }

  /** A call is granted when fewer than thirty destinations were asked for
      before it and its own was not in the last 300 s. */
  lemma NextIsGranted(before: seq<Call>, c: Call, among: set<Dest>)
    requires Grants(before) == before && AsksAmong(before, among) && |among| <= 29
    requires ClockOk(before + [c]) && Spaced(before + [c])
    ensures Granted(TableAfter(before), c)
  {
    hide Grants, TableAfter;
    var t, p, all := TableAfter(before), Purge(TableAfter(before), c.now), before + [c];
    assert all[|before|] == c && forall i :: 0 <= i < |before| ==> all[i] == before[i];
    if before == [] {
      EmptyTable();
    } else {
      assert ClockOk(before);
      TableIsRecentGrants(before);
      forall d | d in t ensures d in among && (d == c.dest ==> c.now - t[d] >= MIN_PATH_REQUEST_INTERVAL) {
        var k :| IsLastGrant(before, d, k) && before[k].now == t[d];
        assert before[k].dest in among;
        assert all[k].now == t[d];
      }
      Subset(p.Keys, among);
    }
  }

  lemma EmptyTable()
    ensures TableAfter([]) == map[]
  {
  }

  lemma {:induction false} AllGranted(calls: seq<Call>, among: set<Dest>)
    requires ClockOk(calls) && Spaced(calls) && AsksAmong(calls, among) && |among| <= 29
    ensures Grants(calls) == calls
    decreases |calls|
  {
    if calls != [] {
      hide Granted, TableAfter;
      var n := |calls| - 1;
      assert calls == calls[..n] + [calls[n]];
      AllGranted(calls[..n], among);
      NextIsGranted(calls[..n], calls[n], among);
    }
  }

  lemma GrantedOneMore(s: seq<Call>, c: Call)
    requires Grants(s) == s && Granted(TableAfter(s), c)
    ensures Grants(s + [c]) == s + [c]
  {
    hide Granted, TableAfter, Step;
    assert (s + [c])[..|s|] == s;
  }

  // Rounds: every destination asks once each 300 s.

  predicate NoDuplicates(names: seq<Dest>) {
    forall i, j :: 0 <= i < j < |names| ==> names[i] != names[j]
  }

  /** The `m`th call of the rounds. */
  function Slot(names: seq<Dest>, m: nat): Call
    requires names != []
  {
    Call(names[m % |names|], 300.0 * (m / |names|) as real)
  }

  function Rounds(names: seq<Dest>, n: nat): (s: seq<Call>)
    requires names != []
    ensures |s| == n && forall i :: 0 <= i < n ==> s[i] == Slot(names, i)
  {
    seq(n, i requires 0 <= i < n => Slot(names, i))
  }

  lemma MulMonotone(k: nat, x: int, y: int)
    ensures x <= y ==> k * x <= k * y
  {
  }

  /** Later calls are not in earlier rounds, and calls of one turn are in
      different rounds. */
  lemma RoundsApart(i: nat, j: nat, k: nat)
    requires i < j && k > 0
    ensures i / k <= j / k && (i % k == j % k ==> i / k < j / k)
  {
    var a, b := i / k, j / k;
    assert i == k * a + i % k && j == k * b + j % k;
    MulMonotone(k, b + 1, a);
  }

  lemma RoundBelow(i: nat, n: nat, k: nat)
    requires k > 0 && i < k * n
    ensures i / k < n
  {
    var a := i / k;
    assert i == k * a + i % k;
    MulMonotone(k, n, a);
  }

  /** Thirteen rounds fit in an hour, in order and with room between repeats. */
  lemma RoundsFit(names: seq<Dest>)
    requires names != [] && NoDuplicates(names)
    ensures var s := Rounds(names, |names| * 13);
            && ClockOk(s) && Spaced(s)
            && forall i :: 0 <= i < |s| ==> 0.0 <= s[i].now <= 3600.0 && s[i].dest in names
  {
    hide Slot, NoDuplicates;
    var s := Rounds(names, |names| * 13);
    forall i, j | 0 <= i < j < |s|
      ensures s[i].now <= s[j].now && (s[i].dest == s[j].dest ==> s[j].now - s[i].now >= MIN_PATH_REQUEST_INTERVAL)
    {
      SlotsApart(names, i, j);
    }
    forall i | 0 <= i < |s| ensures 0.0 <= s[i].now <= 3600.0 && s[i].dest in names {
      SlotWithin(names, i);
    }
  }

  lemma SlotsApart(names: seq<Dest>, i: nat, j: nat)
    requires names != [] && NoDuplicates(names) && i < j
    ensures var c, d := Slot(names, i), Slot(names, j);
            c.now <= d.now && (c.dest == d.dest ==> d.now - c.now >= MIN_PATH_REQUEST_INTERVAL)
  {
    hide NoDuplicates;
    RoundsApart(i, j, |names|);
    SameTurn(names, i, j);
  }

  lemma SlotWithin(names: seq<Dest>, i: nat)
    requires names != [] && i < |names| * 13
    ensures 0.0 <= Slot(names, i).now <= 3600.0 && Slot(names, i).dest in names
  {
    RoundBelow(i, 13, |names|);
  }

  lemma SameTurn(names: seq<Dest>, i: nat, j: nat)
    requires names != [] && NoDuplicates(names)
    ensures Slot(names, i).dest == Slot(names, j).dest ==> i % |names| == j % |names|
  {
    var x, y := i % |names|, j % |names|;
    assert x < y ==> names[x] != names[y];
    assert y < x ==> names[y] != names[x];
  }

  lemma {:induction false} AllCounted(g: seq<Call>, a: real, among: set<Dest>)
    requires forall k :: 0 <= k < |g| ==> InWindow(g[k], a) && g[k].dest in among
    ensures CountIn(g, a, among) == |g|
    decreases |g|
  {
    if g != [] {
      AllCounted(g[..|g| - 1], a, among);
    }
  }

  lemma {:induction false} AsSequence(among: set<Dest>) returns (names: seq<Dest>)
    ensures NoDuplicates(names) && |names| == |among| && forall d :: d in names <==> d in among
    decreases |among|
  {
    if among == {} {
      names := [];
    } else {
      var d :| d in among;
      names := AsSequence(among - {d});
      names := names + [d];
    }
  }

  lemma RoundsReach(names: seq<Dest>) returns (calls: seq<Call>)
    requires NoDuplicates(names) && |names| <= 29
    ensures |calls| == 13 * |names| && ClockOk(calls) && Spaced(calls) && Grants(calls) == calls
    ensures forall i :: 0 <= i < |calls| ==> InWindow(calls[i], 0.0) && calls[i].dest in names
  {
    hide Grants, ClockOk, Spaced;
    if names == [] {
      calls := [];
      NothingGranted();
      EmptyRun();
    } else {
      calls := Rounds(names, |names| * 13);
      RoundsFit(names);
      var among := set i | 0 <= i < |names| :: names[i];
      SetOfSequence(names);
      AllGranted(calls, among);
    }
  }

  lemma EmptyRun()
    ensures ClockOk([]) && Spaced([])
  {
  }

  lemma {:induction false} SetOfSequence(names: seq<Dest>)
    ensures |set i | 0 <= i < |names| :: names[i]| <= |names|
  {
    if names != [] {
      var n := |names| - 1;
      var init := set i | 0 <= i < n :: names[..n][i];
      SetOfSequence(names[..n]);
      assert |names[..n]| == n;
      assert (set i | 0 <= i < |names| :: names[i]) == init + {names[n]} by {
        forall i | 0 <= i < n ensures names[i] in init {
          assert names[..n][i] == names[i];
        }
      }
    }
  }

  /** The peak is reached: all destinations in thirteen rounds or, where there
      are thirty or more, twenty-nine in rounds and one more at the end. */
  lemma PeakIsReached(among: set<Dest>) returns (calls: seq<Call>)
    ensures ClockOk(calls) && AsksAmong(calls, among)
    ensures CountIn(Grants(calls), 0.0, DestsIn(Grants(calls), 0.0)) == Peak(|among|)
  {
    hide Grants, CountIn, Granted, TableAfter;
    var names := AsSequence(among);
    if |among| <= 29 {
      calls := RoundsReach(names);
    } else {
      var most := names[..29];
      var rounds := RoundsReach(most);
      var c := Call(names[29], 3600.0);
      calls := rounds + [c];
      NewcomerFits(names, rounds, c);
    }
    AllCounted(calls, 0.0, DestsIn(calls, 0.0));
  }

  lemma NewcomerFits(names: seq<Dest>, rounds: seq<Call>, c: Call)
    requires |names| >= 30 && NoDuplicates(names) && c == Call(names[29], 3600.0)
    requires ClockOk(rounds) && Spaced(rounds) && Grants(rounds) == rounds
    requires forall i :: 0 <= i < |rounds| ==> InWindow(rounds[i], 0.0) && rounds[i].dest in names[..29]
    ensures ClockOk(rounds + [c]) && Grants(rounds + [c]) == rounds + [c]
    ensures forall i :: 0 <= i <= |rounds| ==> InWindow((rounds + [c])[i], 0.0) && (rounds + [c])[i].dest in names
  {
    hide Grants, Granted, TableAfter;
    var most := names[..29];
    forall i | 0 <= i < |rounds| ensures rounds[i].dest in names && rounds[i].dest != c.dest {
      var j :| 0 <= j < 29 && most[j] == rounds[i].dest;
      assert names[j] != names[29];
    }
    var among := set i | 0 <= i < |most| :: most[i];
    SetOfSequence(most);
    NextIsGranted(rounds, c, among);
    GrantedOneMore(rounds, c);
  }

  /** Any number of destinations. */
  lemma {:induction false} Destinations(k: nat) returns (among: set<Dest>)
    ensures |among| == k && forall d :: d in among ==> |d| < k
  {
    if k == 0 {
      among := {};
    } else {
      among := Destinations(k - 1);
      among := among + {seq(k - 1, _ => 'a')};
    }
  }

  /** The bound is reached: thirty destinations can make 378 grants in one
      hour, more than ten times the 30 that the constant suggests. */
  lemma BudgetIsReached() returns (among: set<Dest>, calls: seq<Call>)
    ensures |among| == 30 && ClockOk(calls) && AsksAmong(calls, among)
    ensures CountIn(Grants(calls), 0.0, DestsIn(Grants(calls), 0.0)) == 378
  {
    among := Destinations(30);
    calls := PeakIsReached(among);
  }

  ghost predicate StaysWithin(among: set<Dest>, bound: nat) {
    forall calls, a :: ClockOk(calls) && AsksAmong(calls, among) ==>
      CountIn(Grants(calls), a, DestsIn(Grants(calls), a)) <= bound
  }

  /** The exact guarantee for the destinations a program asks for: no hour of
      any run sees more grants than a bound exactly when the bound is at least
      the peak of their number. */
  lemma GuaranteeIff(among: set<Dest>, bound: nat)
    ensures StaysWithin(among, bound) <==> Peak(|among|) <= bound
  {
    hide Grants, CountIn, ClockOk, AsksAmong, Peak;
    if StaysWithin(among, bound) {
      var calls := PeakIsReached(among);
      assert CountIn(Grants(calls), 0.0, DestsIn(Grants(calls), 0.0)) <= bound;
    } else {
      var calls, a :| ClockOk(calls) && AsksAmong(calls, among)
                      && CountIn(Grants(calls), a, DestsIn(Grants(calls), a)) > bound;
      PeakBounds(calls, a, among);
    }
  }

  /** The advertised 30 grants an hour are guaranteed exactly to programs that
      ask for at most two destinations. */
  lemma ThirtyKeptIff(among: set<Dest>)
    ensures StaysWithin(among, 30) <==> |among| <= 2
  {
    GuaranteeIff(among, 30);
  }
}
