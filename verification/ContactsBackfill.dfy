/** The startup backfill of src/styrened/models/messages.py: contact rows
    keyed by a destination hash are renamed to the identity hash that the node
    store knows, while walking a snapshot of the flagged keys. */
module ContactsBackfill {
  import opened Prelude

  type Key = string

  /** The columns the backfill must not touch, and the flag it clears. */
  datatype Contact = Contact(alias: string, notes: Option<string>, blocked: bool, blockedAt: Option<real>,
                             createdAt: real, updatedAt: real, needsBackfill: bool)

  type Rows = map<Key, Contact>
  type NodeStore = Key -> Option<Key>

  predicate SameColumns(a: Contact, b: Contact) {
    a == b.(needsBackfill := a.needsBackfill)
  }

  /** The identity that a key resolves to, when it is known and different. */
  function Target(store: NodeStore, k: Key): Option<Key> {
    if store(k).Some? && store(k).value != "" && store(k).value != k then store(k) else None
  }

  /** One pass of the loop body for snapshot key `k`. */
  function Step(store: NodeStore, rows: Rows, k: Key): Rows
    requires k in rows
  {
    match Target(store, k)
    case None => rows
    case Some(t) =>
      var cleared := rows[k].(needsBackfill := false);
      if t !in rows then (rows - {k})[t := cleared] else rows[k := cleared]
  }

  /** A snapshot lists every flagged key once, in any order. */
  ghost predicate IsSnapshot(rows: Rows, snapshot: seq<Key>) {
    && Distinct(snapshot)
    && (forall k :: k in rows && rows[k].needsBackfill <==> k in snapshot)
  }

  /** `names` tells for every original row which key it has now. */
  ghost predicate Renames(before: Rows, after: Rows, names: map<Key, Key>) {
    && names.Keys == before.Keys
    && names.Values == after.Keys
    && (forall a, b {:trigger names[a], names[b]} :: a in names && b in names && names[a] == names[b] ==> a == b)
    && (forall k {:trigger names[k]} :: k in before ==> SameColumns(after[names[k]], before[k]))
    && (forall k {:trigger names[k]} :: k in before && !before[k].needsBackfill ==>
          names[k] == k && after[k] == before[k])
  }

  function Renamed(names: map<Key, Key>): set<Key> {
    set k | k in names && names[k] != k
  }

  /** The table, and the count, after the loop has walked `snapshot`. */
  function Fold(store: NodeStore, rows: Rows, snapshot: seq<Key>): Rows
    decreases |snapshot|
  {
    if snapshot == [] || snapshot[0] !in rows then rows
    else Fold(store, Step(store, rows, snapshot[0]), snapshot[1..])
  }

  function Updates(store: NodeStore, rows: Rows, snapshot: seq<Key>): nat
    decreases |snapshot|
  {
    if snapshot == [] || snapshot[0] !in rows then 0
    else
      var t := Target(store, snapshot[0]);
      (if t.Some? && t.value !in rows then 1 else 0) + Updates(store, Step(store, rows, snapshot[0]), snapshot[1..])
  }

  /** Where every row is after the loop has walked `snapshot`. */
  function Names(store: NodeStore, rows: Rows, snapshot: seq<Key>): map<Key, Key>
    decreases |snapshot|
  {
    if snapshot == [] || snapshot[0] !in rows then map k | k in rows :: k
    else
      var t := Target(store, snapshot[0]);
      var later := Names(store, Step(store, rows, snapshot[0]), snapshot[1..]);
      if t.Some? && t.value !in rows then (later - {t.value})[snapshot[0] := t.value] else later
  }

  class ContactsTable {
    var rows: Rows

    constructor (rows: Rows)
      ensures this.rows == rows
    {
      this.rows := rows;
    }

    /** Returns the number of rows renamed. `snapshot` is the result of the
        query for flagged keys, whose order the database chooses. */
    method Backfill(store: NodeStore, snapshot: seq<Key>) returns (updated: nat)
      requires IsSnapshot(rows, snapshot)
      modifies this
      ensures rows == Fold(store, old(rows), snapshot)
      ensures updated == Updates(store, old(rows), snapshot)
    {
      updated := 0;
      for i := 0 to |snapshot|
        invariant Fold(store, rows, snapshot[i..]) == Fold(store, old(rows), snapshot)
        invariant updated + Updates(store, rows, snapshot[i..]) == Updates(store, old(rows), snapshot)
        invariant forall j :: i <= j < |snapshot| ==> snapshot[j] in rows
      {
        var k := snapshot[i];
        assert snapshot[i..][0] == k && snapshot[i..][1..] == snapshot[i + 1..];
        var resolved := store(k);
        if resolved.Some? && resolved.value != "" && resolved.value != k {
          if resolved.value !in rows {
            rows := (rows - {k})[resolved.value := rows[k].(needsBackfill := false)];
            updated := updated + 1;
          } else {
            rows := rows[k := rows[k].(needsBackfill := false)];
          }
        }
      }
      assert snapshot[|snapshot|..] == [];
    }
  }

  ghost predicate Distinct(snapshot: seq<Key>) {
    forall i, j :: 0 <= i < j < |snapshot| ==> snapshot[i] != snapshot[j]
  }

  ghost predicate Walkable(rows: Rows, snapshot: seq<Key>) {
    Distinct(snapshot) && forall k :: k in snapshot ==> k in rows && rows[k].needsBackfill
  }

  /** The whole effect, for every order of the snapshot: no row is lost or
      merged, keys stay unique, every row keeps its other columns, unflagged
      rows are untouched, the count returned is the number of rows renamed,
      each of them a flagged row moved to the identity the node store knows,
      and the rows still flagged are exactly those flagged ones of which it
      knows nothing new. */
  lemma BackfillEffect(store: NodeStore, rows: Rows, snapshot: seq<Key>)
    requires IsSnapshot(rows, snapshot)
    ensures var after, names := Fold(store, rows, snapshot), Names(store, rows, snapshot);
            && Renames(rows, after, names) && |after| == |rows|
            && Updates(store, rows, snapshot) == |Renamed(names)|
            && (forall k :: k in Renamed(names) ==>
                  rows[k].needsBackfill && store(k) == Some(names[k]) && names[k] != "" && names[k] != k)
            && (forall k :: k in after && after[k].needsBackfill <==>
                  && k in rows && rows[k].needsBackfill
                  && (store(k) == None || store(k) == Some("") || store(k) == Some(k)))
  {
    hide Fold, Names, Updates, Target, Distinct, SameColumns;
    forall k {
      TargetIs(store, k);
    }
    FoldRenames(store, rows, snapshot);
    FoldCounts(store, rows, snapshot);
    FoldFlags(store, rows, snapshot);
    InjectiveImage(Names(store, rows, snapshot));
  }

  lemma TargetIs(store: NodeStore, k: Key)
    ensures Target(store, k)
            == if store(k) == None || store(k) == Some("") || store(k) == Some(k) then None else store(k)
  {
  }

  lemma StepKeepsWalkable(store: NodeStore, rows: Rows, snapshot: seq<Key>)
    requires Walkable(rows, snapshot) && snapshot != []
    ensures Walkable(Step(store, rows, snapshot[0]), snapshot[1..]) && snapshot[0] !in snapshot[1..]
  {
    assert snapshot == [snapshot[0]] + snapshot[1..];
  }

  /** By induction over the snapshot: a row renamed now is unflagged, so no
      later step moves it again. */
  lemma {:induction false} FoldRenames(store: NodeStore, rows: Rows, snapshot: seq<Key>)
    requires Walkable(rows, snapshot)
    ensures Renames(rows, Fold(store, rows, snapshot), Names(store, rows, snapshot))
    decreases |snapshot|
  {
    if snapshot == [] {
      IdentityRenames(rows, Names(store, rows, snapshot));
    } else {
      var k, rest := snapshot[0], snapshot[1..];
      var rows1 := Step(store, rows, k);
      StepKeepsWalkable(store, rows, snapshot);
      FoldRenames(store, rows1, rest);
      var t := Target(store, k);
      if t.Some? && t.value !in rows {
        RenameFirst(rows, rows1, Fold(store, rows1, rest), k, t.value, Names(store, rows1, rest),
                    Names(store, rows, snapshot));
      } else {
        ClearFirst(rows, rows1, Fold(store, rows1, rest), k, Names(store, rows1, rest));
      }
    }
  }

  lemma {:induction false} FoldCounts(store: NodeStore, rows: Rows, snapshot: seq<Key>)
    requires Walkable(rows, snapshot)
    ensures var names := Names(store, rows, snapshot);
            && Updates(store, rows, snapshot) == |Renamed(names)|
            && forall k :: k in Renamed(names) ==> k in snapshot && Target(store, k) == Some(names[k])
    decreases |snapshot|
  {
    if snapshot != [] {
      var k, rest := snapshot[0], snapshot[1..];
      var rows1 := Step(store, rows, k);
      StepKeepsWalkable(store, rows, snapshot);
      FoldCounts(store, rows1, rest);
      FoldRenames(store, rows1, rest);
      var t, later := Target(store, k), Names(store, rows1, rest);
      if t.Some? && t.value !in rows {
        assert later[t.value] == t.value;
        assert Renamed(Names(store, rows, snapshot)) == Renamed(later) + {k};
      }
    } else {
      assert Renamed(Names(store, rows, snapshot)) == {};
    }
  }

  lemma {:induction false} FoldFlags(store: NodeStore, rows: Rows, snapshot: seq<Key>)
    requires Walkable(rows, snapshot)
    ensures var after := Fold(store, rows, snapshot);
            forall k :: k in after && after[k].needsBackfill <==>
              k in rows && rows[k].needsBackfill && (k in snapshot ==> Target(store, k).None?)
    decreases |snapshot|
  {
    if snapshot != [] {
      StepKeepsWalkable(store, rows, snapshot);
      FoldFlags(store, Step(store, rows, snapshot[0]), snapshot[1..]);
    }
  }

  lemma ClearFirst(rows: Rows, rows1: Rows, after: Rows, k: Key, names: map<Key, Key>)
    requires k in rows && rows[k].needsBackfill &&
              (rows1 == rows || rows1 == rows[k := rows[k].(needsBackfill := false)])
    requires Renames(rows1, after, names)
    ensures Renames(rows, after, names)
  {
    forall o {:trigger names[o]} | o in rows
      ensures SameColumns(after[names[o]], rows[o]) && (!rows[o].needsBackfill ==> names[o] == o && after[o] == rows[o])
    {
      assert SameColumns(after[names[o]], rows1[o]);
    }
  }

  lemma IdentityRenames(rows: Rows, names: map<Key, Key>)
    requires names == map k | k in rows :: k
    ensures Renames(rows, rows, names) && Renamed(names) == {}
  {
    forall k | k in rows ensures k in names.Values {
      assert names[k] == k;
    }
  }

  /** Where key `o` is once `k` has been renamed `t`. */
  function Forth(o: Key, k: Key, t: Key): Key {
    if o == k then t else o
  }

  lemma RenameFirst(rows: Rows, rows1: Rows, after: Rows, k: Key, t: Key, names1: map<Key, Key>, names: map<Key, Key>)
    requires k in rows && t !in rows && rows[k].needsBackfill
    requires rows1 == (rows - {k})[t := rows[k].(needsBackfill := false)] && Renames(rows1, after, names1)
    requires names == (names1 - {t})[k := t]
    ensures Renames(rows, after, names)
  {
    assert names1[t] == t;
    assert forall o {:trigger names[o]} :: o in names ==>
        Forth(o, k, t) in names1 && names[o] == names1[Forth(o, k, t)];
    RenameFirstValues(k, t, names1, names);
    forall a, b | a in names && b in names && names[a] == names[b] ensures a == b {
      assert names1[Forth(a, k, t)] == names1[Forth(b, k, t)];
    }
    forall o {:trigger names[o]} | o in rows
      ensures o in names && SameColumns(after[names[o]], rows[o]) &&
                (!rows[o].needsBackfill ==> names[o] == o && after[o] == rows[o])
    {
      RenameFirstRow(rows, rows1, after, k, t, names1, names, o);
    }
  }

  lemma RenameFirstRow(rows: Rows, rows1: Rows, after: Rows, k: Key, t: Key, names1: map<Key, Key>,
                       names: map<Key, Key>, o: Key)
    requires k in rows && t !in rows && rows[k].needsBackfill && o in rows
    requires rows1 == (rows - {k})[t := rows[k].(needsBackfill := false)] && Renames(rows1, after, names1)
    requires names == (names1 - {t})[k := t] && names1[t] == t
    ensures o in names && names[o] in after && SameColumns(after[names[o]], rows[o])
    ensures !rows[o].needsBackfill ==> names[o] == o && after[o] == rows[o]
  {
    assert names1[Forth(o, k, t)] == names[o];
  }

  lemma RenameFirstValues(k: Key, t: Key, names1: map<Key, Key>, names: map<Key, Key>)
    requires k !in names1 && t in names1 && names1[t] == t && names == (names1 - {t})[k := t]
    ensures names.Values == names1.Values
  {
    forall v | v in names1.Values ensures v in names.Values {
      var o :| o in names1 && names1[o] == v;
      assert names[if o == t then k else o] == v;
    }
    forall v | v in names.Values ensures v in names1.Values {
      var o :| o in names && names[o] == v;
      assert names1[Forth(o, k, t)] == v;
    }
  }

  /** A second run with the same node store changes nothing and returns 0,
      in whatever order the two queries list their rows. */
  lemma SecondRunIsIdle(store: NodeStore, rows: Rows, snapshot: seq<Key>, second: seq<Key>)
    requires IsSnapshot(rows, snapshot) && IsSnapshot(Fold(store, rows, snapshot), second)
    ensures var after := Fold(store, rows, snapshot);
            Fold(store, after, second) == after && Updates(store, after, second) == 0
  {
    BackfillEffect(store, rows, snapshot);
    NothingToDo(store, Fold(store, rows, snapshot), second);
  }

  lemma {:induction false} NothingToDo(store: NodeStore, rows: Rows, snapshot: seq<Key>)
    requires forall k :: k in snapshot ==> Target(store, k).None?
    ensures Fold(store, rows, snapshot) == rows && Updates(store, rows, snapshot) == 0
    decreases |snapshot|
  {
    if snapshot != [] {
      NothingToDo(store, rows, snapshot[1..]);
    }
  }

  // ------------------------------------------------------- order of the snapshot

  /** A flagged key whose identity is known and not yet a key of the table. */
  predicate Movable(store: NodeStore, rows: Rows, k: Key) {
    && k in rows && rows[k].needsBackfill
    && Target(store, k).Some? && Target(store, k).value !in rows
  }

  /** Two movable keys that resolve to one identity. */
  predicate Compete(store: NodeStore, rows: Rows, a: Key, b: Key) {
    a != b && Movable(store, rows, a) && Movable(store, rows, b) && Target(store, a) == Target(store, b)
  }

  /** No two movable keys compete for one identity, and no flagged key resolves
      to a movable one. */
  ghost predicate Uncontested(store: NodeStore, rows: Rows) {
    && (forall a, b :: !Compete(store, rows, a, b))
    && (forall j, m :: j in rows && rows[j].needsBackfill && Movable(store, rows, m) ==> Target(store, j) != Some(m))
  }

  ghost predicate OrderFree(store: NodeStore, rows: Rows) {
    forall s1, s2 :: IsSnapshot(rows, s1) && IsSnapshot(rows, s2) ==> Fold(store, rows, s1) == Fold(store, rows, s2)
  }

  /** The two conditions, for the keys still to be walked. */
  ghost predicate UncontestedAmong(store: NodeStore, rows: Rows, walk: seq<Key>) {
    && (forall a, b :: a in walk && b in walk && Moves(store, rows, a) && Target(store, a) == Target(store, b) ==>
          a == b)
    && (forall j, m :: j in walk && m in walk && Moves(store, rows, m) ==> Target(store, j) != Some(m))
  }

  predicate Moves(store: NodeStore, rows: Rows, k: Key) {
    Target(store, k).Some? && Target(store, k).value !in rows
  }

  function Cleared(c: Contact): Contact {
    c.(needsBackfill := false)
  }

  /** What a walk in any order leaves: movable rows at their identity, cleared;
      the others in place, cleared if they were walked and resolved. */
  ghost predicate IsSettled(store: NodeStore, rows: Rows, walk: seq<Key>, after: Rows) {
    StayedPut(store, rows, walk, after) && Moved(store, rows, walk, after) && NothingElse(store, rows, walk, after)
  }

  ghost predicate StayedPut(store: NodeStore, rows: Rows, walk: seq<Key>, after: Rows) {
    forall k :: k in rows && !(k in walk && Moves(store, rows, k)) ==>
      k in after && after[k] == if k in walk && Target(store, k).Some? then Cleared(rows[k]) else rows[k]
  }

  ghost predicate Moved(store: NodeStore, rows: Rows, walk: seq<Key>, after: Rows) {
    forall k :: k in walk && Moves(store, rows, k) ==>
      k in rows && Target(store, k).value in after && after[Target(store, k).value] == Cleared(rows[k])
  }

  ghost predicate NothingElse(store: NodeStore, rows: Rows, walk: seq<Key>, after: Rows) {
    forall v :: v in after ==>
      || (v in rows && !(v in walk && Moves(store, rows, v)))
      || exists k :: k in walk && Moves(store, rows, k) && Target(store, k) == Some(v)
  }

  lemma SettledIsUnique(store: NodeStore, rows: Rows, s1: seq<Key>, s2: seq<Key>, after1: Rows, after2: Rows)
    requires forall k :: k in s1 <==> k in s2
    requires IsSettled(store, rows, s1, after1) && IsSettled(store, rows, s2, after2)
    ensures after1 == after2
  {
    forall v ensures v in after1 <==> v in after2 {
    }
    forall v | v in after1 ensures after1[v] == after2[v] {
    }
  }

  lemma {:induction false} UncontestedSettles(store: NodeStore, rows: Rows, walk: seq<Key>)
    requires Walkable(rows, walk) && UncontestedAmong(store, rows, walk)
    ensures IsSettled(store, rows, walk, Fold(store, rows, walk))
    decreases |walk|
  {
    if walk != [] {
      var k, rest := walk[0], walk[1..];
      var rows1 := Step(store, rows, k);
      assert walk == [k] + rest;
      StepKeepsWalkable(store, rows, walk);
      StillUncontested(store, rows, walk);
      UncontestedSettles(store, rows1, rest);
      SettledStep(store, rows, walk, Fold(store, rows1, rest));
    }
  }

  lemma StillUncontested(store: NodeStore, rows: Rows, walk: seq<Key>)
    requires Walkable(rows, walk) && walk != [] && UncontestedAmong(store, rows, walk)
    ensures forall j :: j in walk[1..] ==> (Moves(store, Step(store, rows, walk[0]), j) <==> Moves(store, rows, j))
    ensures UncontestedAmong(store, Step(store, rows, walk[0]), walk[1..])
  {
    assert walk == [walk[0]] + walk[1..];
    StepKeepsWalkable(store, rows, walk);
  }

  lemma StayedPutStep(store: NodeStore, rows: Rows, walk: seq<Key>, after: Rows)
    requires Walkable(rows, walk) && walk != [] && UncontestedAmong(store, rows, walk)
    requires StayedPut(store, Step(store, rows, walk[0]), walk[1..], after)
    ensures StayedPut(store, rows, walk, after)
  {
    var rows1, rest := Step(store, rows, walk[0]), walk[1..];
    assert walk == [walk[0]] + rest;
    StepKeepsWalkable(store, rows, walk);
    StillUncontested(store, rows, walk);
    hide Walkable, UncontestedAmong, Target;
    forall k | k in rows && !(k in walk && Moves(store, rows, k))
      ensures k in after && after[k] == if k in walk && Target(store, k).Some? then Cleared(rows[k]) else rows[k]
    {
      assert k in rows1 && !(k in rest && Moves(store, rows1, k));
    }
  }

  lemma MovedStep(store: NodeStore, rows: Rows, walk: seq<Key>, after: Rows)
    requires Walkable(rows, walk) && walk != [] && UncontestedAmong(store, rows, walk)
    requires StayedPut(store, Step(store, rows, walk[0]), walk[1..], after)
    requires Moved(store, Step(store, rows, walk[0]), walk[1..], after)
    ensures Moved(store, rows, walk, after)
  {
    var rows1, rest := Step(store, rows, walk[0]), walk[1..];
    assert walk == [walk[0]] + rest;
    StepKeepsWalkable(store, rows, walk);
    StillUncontested(store, rows, walk);
    forall k | k in walk && Moves(store, rows, k)
      ensures k in rows && Target(store, k).value in after && after[Target(store, k).value] == Cleared(rows[k])
    {
      if k == walk[0] {
        assert Target(store, k).value in rows1 && rows1[Target(store, k).value] == Cleared(rows[k]);
      } else {
        assert k in rest && Moves(store, rows1, k) && rows1[k] == rows[k];
      }
    }
  }

  lemma NothingElseStep(store: NodeStore, rows: Rows, walk: seq<Key>, after: Rows)
    requires Walkable(rows, walk) && walk != [] && UncontestedAmong(store, rows, walk)
    requires NothingElse(store, Step(store, rows, walk[0]), walk[1..], after)
    ensures NothingElse(store, rows, walk, after)
  {
    var k, rest := walk[0], walk[1..];
    assert walk == [k] + rest;
    StepKeepsWalkable(store, rows, walk);
    StillUncontested(store, rows, walk);
  }

  lemma SettledStep(store: NodeStore, rows: Rows, walk: seq<Key>, after: Rows)
    requires Walkable(rows, walk) && walk != [] && UncontestedAmong(store, rows, walk)
    requires IsSettled(store, Step(store, rows, walk[0]), walk[1..], after)
    ensures IsSettled(store, rows, walk, after)
  {
    hide StayedPut, Moved, NothingElse;
    StayedPutStep(store, rows, walk, after);
    MovedStep(store, rows, walk, after);
    NothingElseStep(store, rows, walk, after);
  }

  // The other direction: a contest shows in two orders that differ only in a
  // pair of keys, walked after all keys that stay and before all that move.

  lemma {:induction false} FoldAppend(store: NodeStore, rows: Rows, s1: seq<Key>, s2: seq<Key>)
    requires Walkable(rows, s1 + s2)
    ensures Fold(store, rows, s1 + s2) == Fold(store, Fold(store, rows, s1), s2)
    decreases |s1|
  {
    if s1 == [] {
      assert s1 + s2 == s2;
    } else {
      assert (s1 + s2)[0] == s1[0] && (s1 + s2)[1..] == s1[1..] + s2;
      assert s1[0] in s1 + s2;
      StepKeepsWalkable(store, rows, s1 + s2);
      FoldAppend(store, Step(store, rows, s1[0]), s1[1..], s2);
    }
  }

  /** Keys that stay leave the key set alone. */
  lemma {:induction false} StayersKeepKeys(store: NodeStore, rows: Rows, walk: seq<Key>)
    requires forall k :: k in walk ==> !Moves(store, rows, k)
    ensures Fold(store, rows, walk).Keys == rows.Keys
    decreases |walk|
  {
    if walk != [] && walk[0] in rows {
      var rows1 := Step(store, rows, walk[0]);
      assert walk[0] in walk && forall k :: k in walk[1..] ==> k in walk;
      assert rows1.Keys == rows.Keys;
      assert forall k :: Moves(store, rows1, k) <==> Moves(store, rows, k);
      StayersKeepKeys(store, rows1, walk[1..]);
    }
  }

  /** A key that nobody walked resolves to is not created, and one that is not
      walked does not disappear. */
  lemma {:induction false} UntouchedKey(store: NodeStore, rows: Rows, walk: seq<Key>, x: Key)
    requires forall k :: k in walk ==> k != x && Target(store, k) != Some(x)
    ensures x in Fold(store, rows, walk) <==> x in rows
    decreases |walk|
  {
    if walk != [] && walk[0] in rows {
      assert walk[0] in walk && forall k :: k in walk[1..] ==> k in walk;
      UntouchedKey(store, Step(store, rows, walk[0]), walk[1..], x);
    }
  }

  /** `x` and `m` walked in both orders, between stayers and movers: `x` has
      gone from the table after `m`-then-`x` or `x`-then-`m`, whichever lets it
      move, and has stayed after the other. */
  lemma ContestShows(store: NodeStore, rows: Rows, stay: seq<Key>, first: seq<Key>, second: seq<Key>,
                     move: seq<Key>, x: Key)
    requires Walkable(rows, stay + first + move) && Walkable(rows, stay + second + move)
    requires forall k :: k in stay ==> !Moves(store, rows, k)
    requires forall k :: k in move ==> k != x && Target(store, k) != Some(x)
    requires forall r: Rows :: r.Keys == rows.Keys ==> x !in Fold(store, r, first) && x in Fold(store, r, second)
    ensures Fold(store, rows, stay + first + move) != Fold(store, rows, stay + second + move)
  {
    var r := Fold(store, rows, stay);
    StayersKeepKeys(store, rows, stay);
    FoldThree(store, rows, stay, first, move);
    FoldThree(store, rows, stay, second, move);
    UntouchedKey(store, Fold(store, r, first), move, x);
    UntouchedKey(store, Fold(store, r, second), move, x);
  }

  lemma FoldThree(store: NodeStore, rows: Rows, a: seq<Key>, b: seq<Key>, c: seq<Key>)
    requires Walkable(rows, a + b + c)
    ensures Fold(store, rows, a + b + c) == Fold(store, Fold(store, Fold(store, rows, a), b), c)
  {
    var ab := a + b;
    assert forall i :: 0 <= i < |ab| ==> ab[i] == (ab + c)[i];
    assert forall k :: k in ab ==> k in ab + c;
    FoldAppend(store, rows, ab, c);
    FoldAppend(store, rows, a, b);
  }

  lemma FoldPair(store: NodeStore, rows: Rows, a: Key, b: Key)
    requires a in rows && b in rows && a != b
    ensures b in Step(store, rows, a) && Fold(store, rows, [a, b]) == Step(store, Step(store, rows, a), b)
  {
    var rows1 := Step(store, rows, a);
    assert [a, b][1..] == [b] && [b][1..] == [];
    assert Fold(store, rows1, [b]) == Fold(store, Step(store, rows1, b), []);
  }

  /** The order in which `x`, contested by `m`, moves, and the one in which it
      stays. */
  function MovingOrder(store: NodeStore, x: Key, m: Key): seq<Key> {
    if Target(store, x) == Some(m) then [m, x] else [x, m]
  }

  function StayingOrder(store: NodeStore, x: Key, m: Key): seq<Key> {
    if Target(store, x) == Some(m) then [x, m] else [m, x]
  }

  lemma ContestedPair(store: NodeStore, r: Rows, x: Key, m: Key)
    requires x != m && x in r && m in r && Moves(store, r, m)
    requires Target(store, x) == Target(store, m) || Target(store, x) == Some(m)
    ensures x !in Fold(store, r, MovingOrder(store, x, m)) && x in Fold(store, r, StayingOrder(store, x, m))
  {
    hide Fold;
    FoldPair(store, r, x, m);
    FoldPair(store, r, m, x);
  }

  /** A set as a sequence without repeats. */
  lemma Enumerate(keys: set<Key>) returns (walk: seq<Key>)
    ensures Distinct(walk) && forall k :: k in walk <==> k in keys
    decreases |keys|
  {
    if keys == {} {
      walk := [];
    } else {
      var k :| k in keys;
      walk := Enumerate(keys - {k});
      walk := walk + [k];
    }
  }

  lemma PairedSnapshot(rows: Rows, stay: seq<Key>, a: Key, b: Key, move: seq<Key>)
    requires Distinct(stay) && Distinct(move) && a != b
    requires forall k :: k in stay ==> k !in move && k != a && k != b
    requires forall k :: k in move ==> k != a && k != b
    requires forall k :: k in rows && rows[k].needsBackfill <==> k in stay || k in move || k == a || k == b
    ensures IsSnapshot(rows, stay + [a, b] + move) && Walkable(rows, stay + [a, b] + move)
  {
    var s := stay + [a, b] + move;
    assert forall k :: k in s <==> k in stay || k in [a, b] || k in move;
    assert forall i :: 0 <= i < |stay| ==> s[i] == stay[i] && s[i] in stay;
    assert s[|stay|] == a && s[|stay| + 1] == b;
    assert forall i :: |stay| + 2 <= i < |s| ==> s[i] == move[i - |stay| - 2] && s[i] in move;
  }

  /** The flagged keys but two, apart by whether they can move. */
  lemma StayersAndMovers(store: NodeStore, rows: Rows, x: Key, m: Key) returns (stay: seq<Key>, move: seq<Key>)
    ensures Distinct(stay) && Distinct(move)
    ensures forall k :: k in stay <==> k in rows && rows[k].needsBackfill && k != x && k != m && !Moves(store, rows, k)
    ensures forall k :: k in move <==> k in rows && rows[k].needsBackfill && k != x && k != m && Moves(store, rows, k)
  {
    stay := Enumerate(set k | k in rows && rows[k].needsBackfill && k != x && k != m && !Moves(store, rows, k));
    move := Enumerate(set k | k in rows && rows[k].needsBackfill && k != x && k != m && Moves(store, rows, k));
  }

  /** `x` stays if walked after `m` when they compete for one identity, and if
      walked before `m` when `x` resolves to `m`. */
  lemma ContestedOrders(store: NodeStore, rows: Rows, x: Key, m: Key)
    requires x != m && x in rows && rows[x].needsBackfill && Movable(store, rows, m)
    requires Target(store, x) == Target(store, m) || Target(store, x) == Some(m)
    ensures !OrderFree(store, rows)
  {
    hide Fold, Walkable, IsSnapshot, Distinct, Target;
    var stay, move := StayersAndMovers(store, rows, x, m);
    PairedSnapshot(rows, stay, x, m, move);
    PairedSnapshot(rows, stay, m, x, move);
    forall r: Rows | r.Keys == rows.Keys
      ensures x !in Fold(store, r, MovingOrder(store, x, m)) && x in Fold(store, r, StayingOrder(store, x, m))
    {
      ContestedPair(store, r, x, m);
    }
    ContestShows(store, rows, stay, MovingOrder(store, x, m), StayingOrder(store, x, m), move, x);
  }

  lemma SnapshotUncontested(store: NodeStore, rows: Rows, snapshot: seq<Key>)
    requires Uncontested(store, rows) && IsSnapshot(rows, snapshot)
    ensures Walkable(rows, snapshot) && UncontestedAmong(store, rows, snapshot)
  {
    forall a, b | a in snapshot && b in snapshot && Moves(store, rows, a) && Target(store, a) == Target(store, b)
      ensures a == b
    {
      assert !Compete(store, rows, a, b);
    }
  }

  /** The outcome does not depend on the order of the snapshot exactly when no
      two movable keys compete for one identity and no flagged key resolves to
      a movable key. */
  lemma OrderFreeIff(store: NodeStore, rows: Rows)
    ensures OrderFree(store, rows) <==> Uncontested(store, rows)
  {
    if Uncontested(store, rows) {
      forall s1, s2 | IsSnapshot(rows, s1) && IsSnapshot(rows, s2)
        ensures Fold(store, rows, s1) == Fold(store, rows, s2)
      {
        SnapshotUncontested(store, rows, s1);
        SnapshotUncontested(store, rows, s2);
        UncontestedSettles(store, rows, s1);
        UncontestedSettles(store, rows, s2);
        SettledIsUnique(store, rows, s1, s2, Fold(store, rows, s1), Fold(store, rows, s2));
      }
    } else if a, b :| Compete(store, rows, a, b) {
      ContestedOrders(store, rows, a, b);
    } else {
      var j, m :| j in rows && rows[j].needsBackfill && Movable(store, rows, m) && Target(store, j) == Some(m);
      ContestedOrders(store, rows, j, m);
    }
  }

  /** A flagged key that resolves to a movable one: taken first, it keeps its
      stale key forever; taken last, both are renamed. */
  lemma ChainedTarget(store: NodeStore, a: Key, b: Key, c: Key, x: Contact, y: Contact)
    requires a != b && b != c && a != c && b != "" && c != "" && x.needsBackfill && y.needsBackfill
    requires store(a) == Some(b) && store(b) == Some(c)
    ensures var rows := map[a := x, b := y];
            && Fold(store, rows, [a, b]) == map[a := x.(needsBackfill := false), c := y.(needsBackfill := false)]
            && Fold(store, rows, [b, a]) == map[b := x.(needsBackfill := false), c := y.(needsBackfill := false)]
            && Updates(store, rows, [a, b]) == 1 && Updates(store, rows, [b, a]) == 2
  {
    var rows := map[a := x, b := y];
    var r1, r2 := Step(store, rows, a), Step(store, rows, b);
    assert [a, b][1..] == [b] && [b, a][1..] == [a] && [b][1..] == [] && [a][1..] == [];
    assert Fold(store, r1, [b]) == Step(store, r1, b) && Fold(store, r2, [a]) == Step(store, r2, a);
    assert Updates(store, r1, [b]) == 1 && Updates(store, r2, [a]) == 1;
  }

  /** Two movable keys that resolve to one identity: the one taken first gets
      it, the other keeps its stale key. */
  lemma SharedTarget(store: NodeStore, a: Key, b: Key, c: Key, x: Contact, y: Contact)
    requires a != b && b != c && a != c && c != "" && x.needsBackfill && y.needsBackfill
    requires store(a) == Some(c) && store(b) == Some(c)
    ensures var rows := map[a := x, b := y];
            && Fold(store, rows, [a, b]) == map[c := Cleared(x), b := Cleared(y)]
            && Fold(store, rows, [b, a]) == map[c := Cleared(y), a := Cleared(x)]
            && Updates(store, rows, [a, b]) == 1 && Updates(store, rows, [b, a]) == 1
  {
    var rows := map[a := x, b := y];
    var r1, r2 := Step(store, rows, a), Step(store, rows, b);
    assert [a, b][1..] == [b] && [b, a][1..] == [a] && [b][1..] == [] && [a][1..] == [];
    assert Fold(store, r1, [b]) == Step(store, r1, b) && Fold(store, r2, [a]) == Step(store, r2, a);
    assert Updates(store, r1, [b]) == 0 && Updates(store, r2, [a]) == 0;
  }
}
