/** The mutable policy object of src/styrened/models/rbac.py: roster, blocked
    prefixes and the cache of allow lists that every mutator must empty. */
module RbacPolicy {
  import opened Hex
  import opened Prelude
  import opened Rbac

  /** A snapshot of the object. */
  datatype State = State(defaultRole: Role, roster: seq<RosterEntry>, blocked: seq<string>,
                         cache: map<string, seq<Bytes>>)

  function RulesOf(s: State): Rules {
    Rules(s.defaultRole, Table(s.roster), s.blocked)
  }

  /** Every cached list is the one the current roster gives. */
  predicate CacheExact(s: State) {
    forall cap :: cap in s.cache ==> AllowList(s.roster, cap) == Some(s.cache[cap])
  }

  predicate Inv(s: State) {
    Distinct(s.roster) && CacheExact(s)
  }

  datatype Op = AddEntry(entry: RosterEntry) | RemoveEntry(identity: string) | Block(prefix: string)
              | Unblock(prefix: string) | GetAllowList(cap: string)

  function Apply(s: State, op: Op): State {
    match op
    case AddEntry(e) => s.(roster := Put(s.roster, e), cache := map[])
    case RemoveEntry(identity) =>
      if Holds(s.roster, identity) then s.(roster := Drop(s.roster, identity), cache := map[]) else s
    case Block(prefix) =>
      if prefix in s.blocked then s else s.(blocked := s.blocked + [prefix], cache := map[])
    case Unblock(prefix) =>
      if prefix in s.blocked then s.(blocked := RemoveFirst(s.blocked, prefix), cache := map[]) else s
    case GetAllowList(cap) =>
      if cap in s.cache || AllowList(s.roster, cap).None? then s
      else s.(cache := s.cache[cap := AllowList(s.roster, cap).value])
  }

  function Run(s: State, ops: seq<Op>): State
    decreases |ops|
  {
    if ops == [] then s else Run(Apply(s, ops[0]), ops[1..])
  }

  /** After any interleaving of mutations and queries no cached list is stale. */
  lemma {:induction false} RunKeepsCacheExact(s: State, ops: seq<Op>)
    requires Inv(s)
    ensures Inv(Run(s, ops))
    decreases |ops|
  {
    if ops != [] {
      match ops[0] {
        case AddEntry(e) => PutDistinct(s.roster, e);
        case RemoveEntry(identity) => DropHolds(s.roster, identity, identity);
        case _ =>
      }
      RunKeepsCacheExact(Apply(s, ops[0]), ops[1..]);
    }
  }

  /** What an operation does to the roster: entries are filed and removed by
      their hash. */
  lemma RosterAfter(s: State, op: Op)
    requires Distinct(s.roster)
    ensures Apply(s, op).defaultRole == s.defaultRole
    ensures Table(Apply(s, op).roster) == match op
                                          case AddEntry(e) => Table(s.roster)[e.identityHash := e]
                                          case RemoveEntry(identity) => Table(s.roster) - {identity}
                                          case _ => Table(s.roster)
  {
    hide Table, Put, Drop, Distinct, AllowList, RemoveFirst, Holds;
    match op {
      case AddEntry(e) => TableOfPut(s.roster, e);
      case RemoveEntry(identity) => TableOfDrop(s.roster, identity);
      case _ =>
    }
  }

  /** What it does to the prefixes: each is added once, at the end, and one
      occurrence is removed. */
  lemma BlockedAfter(s: State, op: Op)
    ensures multiset(Apply(s, op).blocked) ==
              match op
              case Block(p) => if p in s.blocked then multiset(s.blocked) else multiset(s.blocked) + multiset{p}
              case Unblock(p) => multiset(s.blocked) - multiset{p}
              case _ => multiset(s.blocked)
    ensures op.Block? ==> s.blocked <= Apply(s, op).blocked
  {
    hide Put, Drop, AllowList, RemoveFirst, Holds;
    if op.Unblock? {
      OneFewer(s.blocked, op.prefix);
    }
  }

  /** Whatever changes the rules empties the cache, a query fills it at its own
      capability if the list can be computed, and anything else leaves it. */
  lemma CacheAfter(s: State, op: Op)
    requires Distinct(s.roster)
    ensures var s', changes := Apply(s, op), match op
                                             case AddEntry(_) => true
                                             case RemoveEntry(identity) => identity in Table(s.roster)
                                             case Block(p) => p !in s.blocked
                                             case Unblock(p) => p in s.blocked
                                             case GetAllowList(_) => false;
            && (changes ==> s'.cache == map[])
            && (!changes && !op.GetAllowList? ==> s' == s)
            && (op.GetAllowList? ==>
                  && (op.cap in s'.cache <==> op.cap in s.cache || AllowList(s.roster, op.cap).Some?)
                  && (forall cap :: cap != op.cap || cap in s.cache ==>
                        (cap in s'.cache <==> cap in s.cache) && (cap in s.cache ==> s'.cache[cap] == s.cache[cap])))
  {
    hide Put, Drop, Distinct, AllowList, RemoveFirst;
  }

  lemma {:induction false} OneFewer(xs: seq<string>, x: string)
    ensures multiset(RemoveFirst(xs, x)) == multiset(xs) - multiset{x}
  {
    if xs != [] {
      assert xs == [xs[0]] + xs[1..];
      OneFewer(xs[1..], x);
    }
  }

  class Policy {
    var defaultRole: Role
    var roster: seq<RosterEntry>
    var blocked: seq<string>
    var cache: map<string, seq<Bytes>>

    function Snapshot(): State
      reads this
    {
      State(defaultRole, roster, blocked, cache)
    }

    constructor (defaultRole: Role)
      ensures Snapshot() == State(defaultRole, [], [], map[]) && Inv(Snapshot())
    {
      this.defaultRole, roster, blocked, cache := defaultRole, [], [], map[];
    }

    method ResolveRole(identity: string) returns (role: Role)
      ensures role == Rbac.ResolveRole(RulesOf(Snapshot()), identity)
      ensures role != Blocked ==> !PrefixBlocked(blocked, identity)
    {
      var i := 0;
      while i < |blocked|
        invariant 0 <= i <= |blocked|
        invariant forall j :: 0 <= j < i ==> !Matches(identity, blocked[j])
      {
        if blocked[i] <= identity || identity <= blocked[i] {
          return Blocked;
        }
        i := i + 1;
      }
      var table := Table(roster);
      if identity in table {
        return table[identity].role;
      }
      return defaultRole;
    }

    method HasCapability(identity: string, cap: string) returns (granted: bool)
      ensures granted == Rbac.HasCapability(RulesOf(Snapshot()), identity, cap)
    {
      var role := ResolveRole(identity);
      if role == Blocked {
        return false;
      }
      if cap in RoleCaps(role) {
        return true;
      }
      var table := Table(roster);
      return identity in table && cap in table[identity].grants;
    }

    /** Cached after the first successful computation; a hash that is not
        hexadecimal raises and leaves the cache as it was. */
    method GetAllowList(cap: string) returns (list: Option<seq<Bytes>>)
      requires Inv(Snapshot())
      modifies this`cache
      ensures list == AllowList(roster, cap)
      ensures Snapshot() == Apply(old(Snapshot()), Op.GetAllowList(cap)) && Inv(Snapshot())
    {
      if cap in cache {
        return Some(cache[cap]);
      }
      var result: seq<Bytes> := [];
      var i := 0;
      while i < |roster|
        invariant 0 <= i <= |roster|
        invariant AllowList(roster[..i], cap) == Some(result)
      {
        var entry := roster[i];
        assert roster[..i + 1][..i] == roster[..i];
        if entry.role != Blocked && cap in entry.EffectiveCapabilities() {
          match FromHex(entry.identityHash) {
            case None =>
              AllowListFails(roster, cap, i);
              return None;
            case Some(h) => result := result + [h];
          }
        }
        i := i + 1;
      }
      assert roster[..i] == roster;
      cache := cache[cap := result];
      return Some(result);
    }

    method AddEntry(e: RosterEntry)
      requires Inv(Snapshot())
      modifies this
      ensures Snapshot() == Apply(old(Snapshot()), Op.AddEntry(e)) && Inv(Snapshot())
      ensures Table(roster) == old(Table(roster))[e.identityHash := e]
    {
      hide Table, Put, Distinct, AllowList;
      TableOfPut(roster, e);
      roster := Put(roster, e);
      cache := map[];
    }

    method RemoveEntry(identity: string) returns (removed: bool)
      requires Inv(Snapshot())
      modifies this
      ensures Snapshot() == Apply(old(Snapshot()), Op.RemoveEntry(identity)) && Inv(Snapshot())
      ensures removed == (identity in old(Table(roster)))
      ensures Table(roster) == old(Table(roster)) - {identity}
    {
      hide Table, Drop, Distinct, AllowList;
      TableOfDrop(roster, identity);
      if identity in Table(roster) {
        roster := Drop(roster, identity);
        cache := map[];
        return true;
      }
      return false;
    }

    method Block(prefix: string)
      requires Inv(Snapshot())
      modifies this
      ensures Snapshot() == Apply(old(Snapshot()), Op.Block(prefix)) && Inv(Snapshot())
      ensures prefix in blocked
    {
      if prefix !in blocked {
        blocked := blocked + [prefix];
        cache := map[];
      }
    }

    method Unblock(prefix: string) returns (removed: bool)
      requires Inv(Snapshot())
      modifies this
      ensures Snapshot() == Apply(old(Snapshot()), Op.Unblock(prefix)) && Inv(Snapshot())
      ensures removed == (prefix in old(blocked))
    {
      if prefix in blocked {
        blocked := RemoveFirst(blocked, prefix);
        cache := map[];
        return true;
      }
      return false;
    }
  }

  lemma {:induction false} AllowListFails(roster: seq<RosterEntry>, cap: string, i: nat)
    requires i < |roster|
    ensures Listed(roster[i], cap) && FromHex(roster[i].identityHash).None? ==> AllowList(roster, cap).None?
    decreases |roster|
  {
    if i < |roster| - 1 {
      AllowListFails(roster[..|roster| - 1], cap, i);
    }
  }

  // ------------------------------------------------ what the allow list means

  /** A computed list holds exactly the decoded hashes of the listed entries. */
  lemma {:induction false} AllowListMembers(roster: seq<RosterEntry>, cap: string, h: Bytes)
    requires AllowList(roster, cap).Some?
    ensures h in AllowList(roster, cap).value
            <==> exists e :: e in roster && Listed(e, cap) && FromHex(e.identityHash) == Some(h)
    decreases |roster|
  {
    if roster != [] {
      var init, last := roster[..|roster| - 1], roster[|roster| - 1];
      assert roster == init + [last];
      AllowListMembers(init, cap, h);
      if h in AllowList(roster, cap).value && h !in AllowList(init, cap).value {
        assert last in roster && Listed(last, cap) && FromHex(last.identityHash) == Some(h);
      }
      if e :| e in roster && Listed(e, cap) && FromHex(e.identityHash) == Some(h) {
        assert e in init || e == last;
      }
    }
  }

  predicate HexRoster(roster: seq<RosterEntry>) {
    forall e :: e in roster ==> LowerHex(e.identityHash)
  }

  lemma {:induction false} HexRosterLists(roster: seq<RosterEntry>, cap: string)
    requires HexRoster(roster)
    ensures AllowList(roster, cap).Some?
    decreases |roster|
  {
    if roster != [] {
      var init, last := roster[..|roster| - 1], roster[|roster| - 1];
      assert last in roster;
      assert HexRoster(init) by {
        forall e | e in init ensures e in roster {
        }
      }
      HexRosterLists(init, cap);
      LowerHexParses(last.identityHash);
    }
  }

  /** The list can be computed exactly when every listed hash decodes. */
  lemma {:induction false} ListComputesIff(roster: seq<RosterEntry>, cap: string)
    ensures AllowList(roster, cap).Some? <==> forall e :: e in roster && Listed(e, cap) ==>
              FromHex(e.identityHash).Some?
    decreases |roster|
  {
    hide FromHex, Listed;
    if roster != [] {
      var init, last := roster[..|roster| - 1], roster[|roster| - 1];
      assert roster == init + [last];
      ListComputesIff(init, cap);
    }
  }

  /** Another listed entry whose hash decodes to the same bytes. */
  predicate HasListedAlias(roster: seq<RosterEntry>, cap: string, identity: string) {
    exists i :: 0 <= i < |roster| && Listed(roster[i], cap) && roster[i].identityHash != identity
                && FromHex(roster[i].identityHash) == FromHex(identity)
  }

  /** An identity is on the list when its own entry is listed, or an entry with
      the same bytes is. */
  predicate OnList(s: State, cap: string, identity: string) {
    && AllowList(s.roster, cap).Some? && FromHex(identity).Some?
    && FromHex(identity).value in AllowList(s.roster, cap).value
  }

  lemma OnListIff(s: State, cap: string, identity: string)
    requires Distinct(s.roster) && AllowList(s.roster, cap).Some?
    ensures OnList(s, cap, identity) <==>
              || (Holds(s.roster, identity) && Listed(Table(s.roster)[identity], cap))
              || (FromHex(identity).Some? && HasListedAlias(s.roster, cap, identity))
  {
    hide FromHex, Listed, AllowList, Table, Distinct;
    ListComputesIff(s.roster, cap);
    if FromHex(identity).Some? {
      AllowListMembers(s.roster, cap, FromHex(identity).value);
    }
    if OnList(s, cap, identity) {
      var e :| e in s.roster && Listed(e, cap) && FromHex(e.identityHash) == FromHex(identity);
      var i :| 0 <= i < |s.roster| && s.roster[i] == e;
      TableEntry(s.roster, e);
    }
    if i :| 0 <= i < |s.roster| && Listed(s.roster[i], cap) && FromHex(s.roster[i].identityHash) == FromHex(identity) {
      assert s.roster[i] in s.roster;
    }
  }

  /** For a rostered identity that no blocked prefix matches, being on the list
      and having the capability agree exactly unless the identity is not
      listed itself but shares its bytes with an entry that is. An identity
      that a prefix blocks has no capability, and is on the list all the same. */
  lemma ListedIffCapable(s: State, cap: string, identity: string)
    requires Distinct(s.roster) && AllowList(s.roster, cap).Some? && Holds(s.roster, identity)
    ensures var capable := HasCapability(RulesOf(s), identity, cap);
            && (capable <==> Listed(Table(s.roster)[identity], cap) && !PrefixBlocked(s.blocked, identity))
            && ((OnList(s, cap, identity) <==> capable) <==>
                  if PrefixBlocked(s.blocked, identity) then !OnList(s, cap, identity)
                  else Listed(Table(s.roster)[identity], cap) || FromHex(identity).None?
                       || !HasListedAlias(s.roster, cap, identity))
  {
    hide FromHex, AllowList, Table, Distinct, HasListedAlias, OnList;
    OnListIff(s, cap, identity);
  }

  /** An identity that is not on the roster has the capabilities of the default
      role, which the list knows nothing about: it is on the list only by
      sharing its bytes with a listed entry, and never where all hashes are
      lower-case hexadecimal. */
  lemma UnrosteredListedIff(s: State, cap: string, identity: string)
    requires Distinct(s.roster) && AllowList(s.roster, cap).Some? && !Holds(s.roster, identity)
    ensures HasCapability(RulesOf(s), identity, cap) <==>
              !PrefixBlocked(s.blocked, identity) && cap in RoleCaps(s.defaultRole)
    ensures OnList(s, cap, identity) <==> FromHex(identity).Some? && HasListedAlias(s.roster, cap, identity)
    ensures HexRoster(s.roster) && LowerHex(identity) ==> !OnList(s, cap, identity)
  {
    hide FromHex, AllowList, Table, Distinct, HasListedAlias, OnList, HexRoster, LowerHex, PrefixBlocked;
    OnListIff(s, cap, identity);
    if HexRoster(s.roster) && LowerHex(identity) {
      HexRosterHasNoAlias(s.roster, cap, identity);
    }
  }

  /** Where every hash is lower-case hexadecimal the list can be computed and
      there are no aliases. */
  lemma HexRosterHasNoAlias(roster: seq<RosterEntry>, cap: string, identity: string)
    requires HexRoster(roster) && LowerHex(identity)
    ensures AllowList(roster, cap).Some? && FromHex(identity).Some? && !HasListedAlias(roster, cap, identity)
  {
    hide FromHex;
    HexRosterLists(roster, cap);
    LowerHexParses(identity);
    forall i | 0 <= i < |roster| && FromHex(roster[i].identityHash) == FromHex(identity)
      ensures roster[i].identityHash == identity
    {
      assert roster[i] in roster;
      LowerHexInjective(roster[i].identityHash, identity);
    }
  }

  // ------------------------------------------------------------------ blocking

  /** Blocking denies every matching identity everything and changes no other
      decision. */
  lemma BlockDenies(s: State, prefix: string, identity: string, cap: string)
    ensures var before, after := RulesOf(s), RulesOf(Apply(s, Block(prefix)));
            && (Matches(identity, prefix) ==> ResolveRole(after, identity) == Blocked
                                              && !HasCapability(after, identity, cap))
            && (!Matches(identity, prefix) ==>
                  && ResolveRole(after, identity) == ResolveRole(before, identity)
                  && (HasCapability(after, identity, cap) <==> HasCapability(before, identity, cap)))
  {
    var b := Apply(s, Block(prefix)).blocked;
    if Matches(identity, prefix) {
      var i :| 0 <= i < |b| && b[i] == prefix;
      assert Matches(identity, b[i]);
    } else {
      assert PrefixBlocked(b, identity) <==> PrefixBlocked(s.blocked, identity) by {
        if i :| 0 <= i < |s.blocked| && Matches(identity, s.blocked[i]) {
          assert b[i] == s.blocked[i];
        }
        if i :| 0 <= i < |b| && Matches(identity, b[i]) {
          assert i < |s.blocked|;
        }
      }
    }
  }

  lemma {:induction false} RunAppend(s: State, a: seq<Op>, b: seq<Op>)
    ensures Run(s, a + b) == Run(Run(s, a), b)
    decreases |a|
  {
    if a == [] {
      assert a + b == b;
    } else {
      assert (a + b)[0] == a[0] && (a + b)[1..] == a[1..] + b;
      RunAppend(Apply(s, a[0]), a[1..], b);
    }
  }

  lemma {:induction false} RemoveFirstMembers(xs: seq<string>, x: string, y: string)
    ensures |RemoveFirst(xs, x)| == if x in xs then |xs| - 1 else |xs|
    ensures y != x ==> (y in RemoveFirst(xs, x) <==> y in xs)
    ensures y !in xs ==> y !in RemoveFirst(xs, x)
  {
    if xs != [] {
      assert xs == [xs[0]] + xs[1..];
      RemoveFirstMembers(xs[1..], x, y);
    }
  }

  lemma {:induction false} RemoveFirstAppend(xs: seq<string>, x: string, y: string)
    ensures x in xs || x == y ==> RemoveFirst(xs + [y], x) == if x in xs then RemoveFirst(xs, x) + [y] else xs
  {
    if xs != [] {
      assert (xs + [y])[1..] == xs[1..] + [y];
      RemoveFirstAppend(xs[1..], x, y);
    }
  }

  lemma {:induction false} RemovalsCommute(xs: seq<string>, x: string, y: string)
    ensures RemoveFirst(RemoveFirst(xs, x), y) == RemoveFirst(RemoveFirst(xs, y), x)
  {
    if xs != [] && x != y {
      RemovalsCommute(xs[1..], x, y);
    }
  }

  /** `t` is what `s` would be had `prefix` never been blocked. */
  predicate Shadow(s: State, t: State, prefix: string) {
    && s.defaultRole == t.defaultRole && s.roster == t.roster
    && prefix in s.blocked && prefix !in t.blocked && RemoveFirst(s.blocked, prefix) == t.blocked
  }

  lemma StepKeepsShadow(s: State, t: State, prefix: string, op: Op)
    requires Shadow(s, t, prefix) && op != Block(prefix) && op != Unblock(prefix)
    ensures Shadow(Apply(s, op), Apply(t, op), prefix)
  {
    hide RemoveFirst, Put, Drop, Holds, AllowList;
    match op {
      case Block(q) =>
        RemoveFirstMembers(s.blocked, prefix, q);
        RemoveFirstAppend(s.blocked, prefix, q);
      case Unblock(q) =>
        RemoveFirstMembers(s.blocked, prefix, q);
        RemoveFirstMembers(s.blocked, q, prefix);
        RemoveFirstMembers(t.blocked, q, prefix);
        RemovalsCommute(s.blocked, prefix, q);
      case _ =>
    }
  }

  lemma {:induction false} RunKeepsShadow(s: State, t: State, prefix: string, ops: seq<Op>)
    requires Shadow(s, t, prefix) && Block(prefix) !in ops && Unblock(prefix) !in ops
    ensures Shadow(Run(s, ops), Run(t, ops), prefix)
    decreases |ops|
  {
    hide Shadow, Apply;
    if ops != [] {
      StepKeepsShadow(s, t, prefix, ops[0]);
      RunKeepsShadow(Apply(s, ops[0]), Apply(t, ops[0]), prefix, ops[1..]);
    }
  }

  lemma {:induction false} RunKeepsBlocked(s: State, prefix: string, ops: seq<Op>)
    requires prefix in s.blocked && Unblock(prefix) !in ops
    ensures prefix in Run(s, ops).blocked
    decreases |ops|
  {
    hide RemoveFirst, Put, Drop, Holds, AllowList;
    if ops != [] {
      if ops[0].Unblock? {
        RemoveFirstMembers(s.blocked, ops[0].prefix, prefix);
      }
      RunKeepsBlocked(Apply(s, ops[0]), prefix, ops[1..]);
    }
  }

  /** Unblocking undoes blocking: whatever other operations come in between,
      the rules, and with them every decision, are as if the prefix had never
      been blocked, exactly when it was not on the list before. */
  lemma UnblockUndoesBlock(s: State, prefix: string, ops: seq<Op>)
    requires Block(prefix) !in ops && Unblock(prefix) !in ops
    ensures RulesOf(Run(s, [Block(prefix)] + ops + [Unblock(prefix)])) == RulesOf(Run(s, ops))
            <==> prefix !in s.blocked
  {
    hide Run, RemoveFirst, Put, Drop, Holds, AllowList, Table;
    var blocked := Apply(s, Block(prefix));
    var mid := Run(blocked, ops);
    BlockRunUnblock(s, prefix, ops);
    RemoveFirstMembers(mid.blocked, prefix, prefix);
    if prefix in s.blocked {
      RunKeepsBlocked(s, prefix, ops);
    } else {
      RemoveFirstAppend(s.blocked, prefix, prefix);
      RunKeepsShadow(blocked, s, prefix, ops);
    }
  }

  lemma BlockRunUnblock(s: State, prefix: string, ops: seq<Op>)
    ensures Run(s, [Block(prefix)] + ops + [Unblock(prefix)])
            == Apply(Run(Apply(s, Block(prefix)), ops), Unblock(prefix))
  {
    hide Apply;
    var all := [Block(prefix)] + ops;
    assert all[0] == Block(prefix) && all[1..] == ops;
    RunAppend(s, all, [Unblock(prefix)]);
    assert [Unblock(prefix)][1..] == [];
  }
}
