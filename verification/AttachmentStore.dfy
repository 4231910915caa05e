/** Budget enforcement of src/styrened/services/attachment_store.py: oldest
    files go first until the store fits. The file tree is a map from paths;
    `listing` is the order in which it is walked. */
module AttachmentStore {

  datatype File = File(mtime: real, size: nat)

  datatype Entry = Entry(mtime: real, size: nat, path: string)

  predicate IsTemporary(path: string) {
    |path| >= 4 && path[|path| - 4..] == ".tmp"
  }

  /** The walk visits every file once. */
  ghost predicate Lists(listing: seq<string>, files: map<string, File>) {
    && (forall i, j :: 0 <= i < j < |listing| ==> listing[i] != listing[j])
    && (forall p :: p in files <==> p in listing)
  }

  /** Bytes the files take, walked in the order given. */
  function Usage(files: map<string, File>, listing: seq<string>): nat {
    if listing == [] then 0
    else
      var last := listing[|listing| - 1];
      Usage(files, listing[..|listing| - 1]) + if last in files then files[last].size else 0
  }

  function EntryOf(files: map<string, File>, p: string): Entry
    requires p in files
  {
    Entry(files[p].mtime, files[p].size, p)
  }

  function Candidates(files: map<string, File>, listing: seq<string>): seq<Entry> {
    if listing == [] then []
    else
      var init, last := Candidates(files, listing[..|listing| - 1]), listing[|listing| - 1];
      if last in files && !IsTemporary(last) then init + [EntryOf(files, last)] else init
  }

  /** Before the first entry that is not older. */
  function Insert(e: Entry, es: seq<Entry>): seq<Entry> {
    if es == [] || e.mtime <= es[0].mtime then [e] + es else [es[0]] + Insert(e, es[1..])
  }

  /** A stable sort by age, oldest first. */
  function ByAge(es: seq<Entry>): seq<Entry> {
    if es == [] then [] else Insert(es[0], ByAge(es[1..]))
  }

  /** The bytes that removing the entries sets free; those in `stuck` stay. */
  function Released(es: seq<Entry>, stuck: set<string>): nat {
    if es == [] then 0
    else
      var last := es[|es| - 1];
      Released(es[..|es| - 1], stuck) + if last.path in stuck then 0 else last.size
  }

  // ------------------------------------------------------------------ eviction

  /** How many entries are tried: as long as something is in excess. Files in
      `stuck` cannot be removed. */
  function Tried(order: seq<Entry>, excess: int, stuck: set<string>): (n: nat)
    ensures n <= |order|
  {
    if order == [] || excess <= 0 then 0
    else 1 + Tried(order[1..], if order[0].path in stuck then excess else excess - order[0].size, stuck)
  }

  function Gone(es: seq<Entry>, stuck: set<string>): set<string> {
    set i | 0 <= i < |es| && es[i].path !in stuck :: es[i].path
  }

  class AttachmentStore {
    var files: map<string, File>
    const budget: nat

    constructor (budget: nat)
      ensures files == map[] && this.budget == budget
    {
      files := map[];
      this.budget := budget;
    }

    method GetUsage(listing: seq<string>) returns (used: nat)
      ensures used == Usage(files, listing)
    {
      used := 0;
      var i := 0;
      while i < |listing|
        invariant 0 <= i <= |listing|
        invariant used == Usage(files, listing[..i])
      {
        assert listing[..i + 1][..i] == listing[..i];
        if listing[i] in files {
          used := used + files[listing[i]].size;
        }
        i := i + 1;
      }
      assert listing[..i] == listing;
    }

    method CollectCandidates(listing: seq<string>) returns (found: seq<Entry>)
      ensures found == Candidates(files, listing)
    {
      found := [];
      var i := 0;
      while i < |listing|
        invariant 0 <= i <= |listing|
        invariant found == Candidates(files, listing[..i])
      {
        assert listing[..i + 1][..i] == listing[..i];
        if listing[i] in files && !IsTemporary(listing[i]) {
          found := found + [EntryOf(files, listing[i])];
        }
        i := i + 1;
      }
      assert listing[..i] == listing;
    }

    /** The files tried and removable go, nothing else changes, the answer is
        the sizes of the files that went, which is what the usage dropped by,
        and afterwards the store fits or every candidate was tried. */
    method EnforceBudget(listing: seq<string>, stuck: set<string>) returns (freed: nat)
      requires Lists(listing, files)
      modifies this
      ensures var order := ByAge(Candidates(old(files), listing));
              var n := Tried(order, Usage(old(files), listing) - budget, stuck);
              && files == old(files) - Gone(order[..n], stuck)
              && freed == Released(order[..n], stuck)
              && (Usage(files, listing) <= budget || n == |order|)
      ensures freed == Usage(old(files), listing) - Usage(files, listing)
    {
      hide Usage, Candidates, ByAge, Gone, IsTemporary, Aged, Tried, EntryOf, Released;
      GoneEmpty(stuck);
      var used := GetUsage(listing);
      if used <= budget {
        TriedEnds(ByAge(Candidates(files, listing)), used - budget, stuck);
        assert ByAge(Candidates(files, listing))[..0] == [];
        return 0;
      }
      var found := CollectCandidates(listing);
      OrderIsSound(files, listing);
      freed := Evict(ByAge(found), used, listing, stuck);
    }

    method Evict(order: seq<Entry>, used: nat, listing: seq<string>, stuck: set<string>) returns (freed: nat)
      requires Lists(listing, files) && used == Usage(files, listing)
      requires forall e :: e in order ==> Unmoved(e, files)
      requires forall i, j :: 0 <= i < j < |order| ==> order[i].path != order[j].path
      modifies this
      ensures files == old(files) - Gone(order[..Tried(order, used - budget, stuck)], stuck)
      ensures freed == Released(order[..Tried(order, used - budget, stuck)], stuck) == used - Usage(files, listing)
      ensures Usage(files, listing) <= budget || Tried(order, used - budget, stuck) == |order|
    {
      hide Usage, Gone, Tried, Released;
      freed := 0;
      var i := 0;
      GoneEmpty(stuck);
      assert order[..0] == [] && order[0..] == order;
      while i < |order| && used - freed > budget
        invariant 0 <= i <= |order|
        invariant files == old(files) - Gone(order[..i], stuck)
        invariant used - freed == Usage(files, listing) && freed == Released(order[..i], stuck)
        invariant i + Tried(order[i..], used - freed - budget, stuck) == Tried(order, used - budget, stuck)
        invariant forall j :: i <= j < |order| ==> Unmoved(order[j], files)
      {
        var e := order[i];
        assert Unmoved(e, files);
        TriedStep(order, i, used - freed - budget, stuck);
        assert order[..i + 1] == order[..i] + [e];
        GoneSnoc(order[..i], e, stuck);
        ReleasedSnoc(order[..i], e, stuck);
        if e.path !in stuck {
          UsageWithout(files, listing, e.path);
          files := files - {e.path};
          freed := freed + e.size;
        }
        i := i + 1;
      }
      TriedEnds(order[i..], used - freed - budget, stuck);
    }
  }

  lemma TriedStep(order: seq<Entry>, i: nat, excess: int, stuck: set<string>)
    requires i < |order| && excess > 0
    ensures Tried(order[i..], excess, stuck)
            == 1 + Tried(order[i + 1..], if order[i].path in stuck then excess else excess - order[i].size, stuck)
  {
    assert order[i..][1..] == order[i + 1..];
  }

  lemma TriedEnds(order: seq<Entry>, excess: int, stuck: set<string>)
    requires order == [] || excess <= 0
    ensures Tried(order, excess, stuck) == 0
  {
  }

  predicate Unmoved(e: Entry, files: map<string, File>) {
    e.path in files && e == EntryOf(files, e.path)
  }

  lemma GoneEmpty(stuck: set<string>)
    ensures Gone([], stuck) == {} && Released([], stuck) == 0
  {
  }

  lemma ReleasedSnoc(es: seq<Entry>, e: Entry, stuck: set<string>)
    ensures Released(es + [e], stuck) == Released(es, stuck) + if e.path in stuck then 0 else e.size
  {
    assert (es + [e])[..|es|] == es;
  }

  lemma GoneSnoc(es: seq<Entry>, e: Entry, stuck: set<string>)
    ensures Gone(es + [e], stuck) == Gone(es, stuck) + if e.path in stuck then {} else {e.path}
  {
    var all := es + [e];
    forall p | p in Gone(es, stuck) ensures p in Gone(all, stuck) {
      var i :| 0 <= i < |es| && es[i].path !in stuck && es[i].path == p;
      assert all[i].path == p;
    }
    assert all[|es|] == e;
  }

  lemma {:induction false} UsageSame(f: map<string, File>, g: map<string, File>, listing: seq<string>)
    requires forall p :: p in listing ==> (p in f <==> p in g) && (p in f ==> f[p].size == g[p].size)
    ensures Usage(f, listing) == Usage(g, listing)
    decreases |listing|
  {
    if listing != [] {
      UsageSame(f, g, listing[..|listing| - 1]);
      assert listing[|listing| - 1] in listing;
    }
  }

  /** Removing one listed file lowers the usage by its size. */
  lemma {:induction false} UsageWithout(files: map<string, File>, listing: seq<string>, p: string)
    requires forall i, j :: 0 <= i < j < |listing| ==> listing[i] != listing[j]
    requires p in files && p in listing
    ensures Usage(files - {p}, listing) + files[p].size == Usage(files, listing)
    decreases |listing|
  {
    var init, last := listing[..|listing| - 1], listing[|listing| - 1];
    assert listing == init + [last];
    if last == p {
      assert p !in init;
      UsageSame(files - {p}, files, init);
    } else {
      UsageWithout(files, init, p);
    }
  }

  lemma {:induction false} NoFilesNoUsage(listing: seq<string>)
    ensures Usage(map[], listing) == 0
    decreases |listing|
  {
    if listing != [] {
      NoFilesNoUsage(listing[..|listing| - 1]);
    }
  }

  /** The usage is the sum of the sizes, whatever the order of the walk. */
  lemma {:induction false} UsageAnyOrder(files: map<string, File>, one: seq<string>, other: seq<string>)
    requires forall i, j :: 0 <= i < j < |one| ==> one[i] != one[j]
    requires forall i, j :: 0 <= i < j < |other| ==> other[i] != other[j]
    requires forall p :: p in files ==> p in one && p in other
    ensures Usage(files, one) == Usage(files, other)
    ensures forall p :: p in files ==> Usage(files, one) == Usage(files - {p}, one) + files[p].size
    ensures files == map[] ==> Usage(files, one) == 0
    decreases |files|
  {
    hide Usage;
    forall p | p in files ensures Usage(files, one) == Usage(files - {p}, one) + files[p].size {
      UsageWithout(files, one, p);
    }
    if files == map[] {
      NoFilesNoUsage(one);
      NoFilesNoUsage(other);
    } else {
      var p :| p in files;
      UsageAnyOrder(files - {p}, one, other);
      UsageWithout(files, other, p);
    }
  }

  /** Temporary files are those whose name ends in ".tmp". */
  lemma TemporaryIff(path: string)
    ensures IsTemporary(path) <==> exists stem :: path == stem + ".tmp"
  {
    if IsTemporary(path) {
      assert path == path[..|path| - 4] + ".tmp";
    }
  }

  // --------------------------------------------------------------- the ordering

  predicate Aged(es: seq<Entry>) {
    forall i, j :: 0 <= i < j < |es| ==> es[i].mtime <= es[j].mtime
  }

  lemma {:induction false} InsertKeeps(e: Entry, es: seq<Entry>)
    ensures multiset(Insert(e, es)) == multiset(es) + multiset{e}
  {
    if es != [] && es[0].mtime < e.mtime {
      InsertKeeps(e, es[1..]);
      assert es == [es[0]] + es[1..];
    }
  }

  lemma {:induction false} InsertAged(e: Entry, es: seq<Entry>)
    requires Aged(es)
    ensures Aged(Insert(e, es))
    ensures Insert(e, es)[0].mtime == if es == [] || e.mtime <= es[0].mtime then e.mtime else es[0].mtime
  {
    if es != [] && es[0].mtime < e.mtime {
      var rest := Insert(e, es[1..]);
      InsertAged(e, es[1..]);
      assert es[0].mtime <= rest[0].mtime;
      forall i | 0 <= i < |rest| ensures es[0].mtime <= rest[i].mtime {
        assert i > 0 ==> rest[0].mtime <= rest[i].mtime;
      }
    }
  }

  /** The order of eviction is a permutation of the candidates, oldest first. */
  lemma {:induction false} ByAgeSorts(es: seq<Entry>)
    ensures Aged(ByAge(es)) && multiset(ByAge(es)) == multiset(es)
  {
    if es != [] {
      ByAgeSorts(es[1..]);
      hide Insert, Aged;
      InsertAged(es[0], ByAge(es[1..]));
      InsertKeeps(es[0], ByAge(es[1..]));
      assert es == [es[0]] + es[1..];
    }
  }

  function AtTime(es: seq<Entry>, t: real): seq<Entry> {
    if es == [] then [] else (if es[0].mtime == t then [es[0]] else []) + AtTime(es[1..], t)
  }

  lemma AtTimeCons(e: Entry, es: seq<Entry>, t: real)
    ensures AtTime([e] + es, t) == (if e.mtime == t then [e] else []) + AtTime(es, t)
  {
    assert ([e] + es)[1..] == es;
  }

  lemma {:induction false} InsertStable(e: Entry, es: seq<Entry>, t: real)
    ensures AtTime(Insert(e, es), t) == (if e.mtime == t then [e] else []) + AtTime(es, t)
  {
    hide AtTime;
    if es == [] || e.mtime <= es[0].mtime {
      AtTimeCons(e, es, t);
    } else {
      var rest := Insert(e, es[1..]);
      InsertStable(e, es[1..], t);
      AtTimeCons(es[0], rest, t);
      AtTimeCons(es[0], es[1..], t);
      assert es == [es[0]] + es[1..];
    }
  }

  /** Files of one age keep the order of the walk. */
  lemma {:induction false} ByAgeIsStable(es: seq<Entry>, t: real)
    ensures AtTime(ByAge(es), t) == AtTime(es, t)
  {
    if es != [] {
      ByAgeIsStable(es[1..], t);
      InsertStable(es[0], ByAge(es[1..]), t);
    }
  }

  lemma {:induction false} CandidatesAre(files: map<string, File>, listing: seq<string>)
    requires forall i, j :: 0 <= i < j < |listing| ==> listing[i] != listing[j]
    ensures forall e :: e in Candidates(files, listing)
                        <==> e.path in listing && e.path in files && !IsTemporary(e.path) && e == EntryOf(files, e.path)
    ensures forall e :: multiset(Candidates(files, listing))[e] <= 1
    decreases |listing|
  {
    if listing != [] {
      var init, last := listing[..|listing| - 1], listing[|listing| - 1];
      assert listing == init + [last];
      CandidatesAre(files, init);
      assert last !in init;
      if last in files {
        assert EntryOf(files, last) !in Candidates(files, init);
      }
    }
  }

  lemma OrderIsSound(files: map<string, File>, listing: seq<string>)
    requires Lists(listing, files)
    ensures var order := ByAge(Candidates(files, listing));
            && (forall e :: e in order <==> e.path in files && !IsTemporary(e.path) && e == EntryOf(files, e.path))
            && (forall i, j :: 0 <= i < j < |order| ==> order[i].path != order[j].path)
            && Aged(order)
  {
    var found := Candidates(files, listing);
    var order := ByAge(found);
    CandidatesAre(files, listing);
    ByAgeSorts(found);
    forall e ensures e in order <==> e in found {
      assert e in order <==> e in multiset(order);
    }
    forall i, j | 0 <= i < j < |order| ensures order[i].path != order[j].path {
      if order[i] == order[j] {
        Repeated(order, i, j);
      }
      assert order[i] in order && order[j] in order;
    }
  }

  lemma Repeated(es: seq<Entry>, i: nat, j: nat)
    requires i < j < |es| && es[i] == es[j]
    ensures multiset(es)[es[i]] >= 2
  {
    assert es == es[..i] + [es[i]] + es[i + 1..j] + [es[j]] + es[j + 1..];
  }

  // ----------------------------------------------------------------- main results

  /** What is tried is the shortest prefix whose removable part makes up for
      the excess, or everything. */
  lemma {:induction false} TriedIsShortest(order: seq<Entry>, excess: int, stuck: set<string>)
    ensures var n := Tried(order, excess, stuck);
            && (n == |order| || excess - Released(order[..n], stuck) <= 0)
            && forall j :: 0 <= j < n ==> excess - Released(order[..j], stuck) > 0
  {
    var n := Tried(order, excess, stuck);
    if order != [] && excess > 0 {
      var rest := order[1..];
      TriedIsShortest(rest, if order[0].path in stuck then excess else excess - order[0].size, stuck);
      ReleasedHead(order, n, stuck);
      forall j | 0 <= j < n ensures excess - Released(order[..j], stuck) > 0 {
        if j > 0 {
          ReleasedHead(order, j, stuck);
        }
      }
    }
  }

  lemma {:induction false} ReleasedHead(es: seq<Entry>, n: nat, stuck: set<string>)
    requires 0 < n <= |es|
    ensures Released(es[..n], stuck)
            == (if es[0].path in stuck then 0 else es[0].size) + Released(es[1..][..n - 1], stuck)
    decreases n
  {
    if n > 1 {
      ReleasedHead(es, n - 1, stuck);
      assert es[..n][..n - 1] == es[..n - 1];
      assert es[1..][..n - 1][..n - 2] == es[1..][..n - 2];
    }
  }

  /** With a prefix of the order gone, the usage has dropped by what it released. */
  lemma {:induction false} UsageAfter(files: map<string, File>, listing: seq<string>, n: nat, stuck: set<string>)
    requires Lists(listing, files) && n <= |ByAge(Candidates(files, listing))|
    ensures var prefix := ByAge(Candidates(files, listing))[..n];
            Usage(files - Gone(prefix, stuck), listing) == Usage(files, listing) - Released(prefix, stuck)
    decreases n
  {
    hide Usage, Candidates, ByAge, Gone, IsTemporary, Aged, Released;
    var order := ByAge(Candidates(files, listing));
    GoneEmpty(stuck);
    if n == 0 {
      assert order[..0] == [] && files - {} == files;
    } else {
      var e := order[n - 1];
      UsageAfter(files, listing, n - 1, stuck);
      assert order[..n] == order[..n - 1] + [e];
      GoneSnoc(order[..n - 1], e, stuck);
      ReleasedSnoc(order[..n - 1], e, stuck);
      OrderIsSound(files, listing);
      NotYetGone(order, n - 1, stuck);
      var left := files - Gone(order[..n - 1], stuck);
      assert e in order && e.path in left;
      if e.path !in stuck {
        UsageWithout(left, listing, e.path);
        assert left - {e.path} == files - Gone(order[..n], stuck);
      } else {
        assert left == files - Gone(order[..n], stuck);
      }
    }
  }

  lemma NotYetGone(order: seq<Entry>, n: nat, stuck: set<string>)
    requires n < |order| && forall i, j :: 0 <= i < j < |order| ==> order[i].path != order[j].path
    ensures order[n].path !in Gone(order[..n], stuck)
  {
  }

  /** Enforcement removes the shortest oldest-first prefix that brings the
      store within budget, whichever removals fail; if none does, everything
      that is not temporary and can be removed is gone. Within budget nothing
      goes. */
  lemma ShortestPrefix(files: map<string, File>, listing: seq<string>, budget: nat, stuck: set<string>)
    requires Lists(listing, files)
    ensures var order := ByAge(Candidates(files, listing));
            var n := Tried(order, Usage(files, listing) - budget, stuck);
            && (Usage(files, listing) <= budget ==> n == 0)
            && (forall j :: 0 <= j < n ==> Usage(files - Gone(order[..j], stuck), listing) > budget)
            && (Usage(files - Gone(order[..n], stuck), listing) <= budget
                || Gone(order[..n], stuck) == set p | p in files && !IsTemporary(p) && p !in stuck)
  {
    hide Usage, Candidates, ByAge, Gone, Aged, Released;
    var order := ByAge(Candidates(files, listing));
    var excess := Usage(files, listing) - budget;
    var n := Tried(order, excess, stuck);
    TriedIsShortest(order, excess, stuck);
    UsageAfter(files, listing, n, stuck);
    forall j | 0 <= j < n ensures Usage(files - Gone(order[..j], stuck), listing) > budget {
      UsageAfter(files, listing, j, stuck);
    }
    if n == |order| {
      AllGone(files, listing, stuck);
      assert order[..n] == order;
    }
  }

  lemma AllGone(files: map<string, File>, listing: seq<string>, stuck: set<string>)
    requires Lists(listing, files)
    ensures Gone(ByAge(Candidates(files, listing)), stuck) == set p | p in files && !IsTemporary(p) && p !in stuck
  {
    hide Candidates, ByAge, Aged, IsTemporary;
    var order := ByAge(Candidates(files, listing));
    OrderIsSound(files, listing);
    forall p | p in files && !IsTemporary(p) && p !in stuck ensures p in Gone(order, stuck) {
      assert EntryOf(files, p) in order;
      var i :| 0 <= i < |order| && order[i] == EntryOf(files, p);
      assert order[i].path == p;
    }
    forall p | p in Gone(order, stuck) ensures p in files && !IsTemporary(p) && p !in stuck {
      var i :| 0 <= i < |order| && order[i].path !in stuck && order[i].path == p;
      assert order[i] in order;
    }
  }

  lemma GoneWas(order: seq<Entry>, n: nat, stuck: set<string>, p: string)
    requires n <= |order| && p in Gone(order[..n], stuck)
    ensures p !in stuck && exists i :: 0 <= i < n && order[i].path == p
  {
    var i :| 0 <= i < n && order[..n][i].path == p && p !in stuck;
    assert order[i].path == p;
  }

  lemma PrefixGoes(order: seq<Entry>, n: nat, stuck: set<string>, k: nat)
    requires k < n <= |order| && order[k].path !in stuck
    ensures order[k].path in Gone(order[..n], stuck)
  {
    assert order[..n][k].path == order[k].path;
  }

  /** Temporary files never go, and a removable file that survives is no older
      than any file that went. */
  lemma OldestGoFirst(files: map<string, File>, listing: seq<string>, n: nat, stuck: set<string>, p: string)
    requires Lists(listing, files) && n <= |ByAge(Candidates(files, listing))|
    requires p in Gone(ByAge(Candidates(files, listing))[..n], stuck)
    ensures p in files && !IsTemporary(p) && p !in stuck
    ensures var gone := Gone(ByAge(Candidates(files, listing))[..n], stuck);
            forall q :: q in files && q !in gone && !IsTemporary(q) && q !in stuck ==> files[p].mtime <= files[q].mtime
  {
    hide ByAge, Candidates, Gone, IsTemporary;
    var order := ByAge(Candidates(files, listing));
    OrderIsSound(files, listing);
    GoneWas(order, n, stuck, p);
    var i :| 0 <= i < n && order[i].path == p;
    assert order[i] in order;
    forall q | q in files && q !in Gone(order[..n], stuck) && !IsTemporary(q) && q !in stuck
      ensures files[p].mtime <= files[q].mtime
    {
      assert EntryOf(files, q) in order;
      var j :| 0 <= j < |order| && order[j] == EntryOf(files, q);
      if j < n {
        PrefixGoes(order, n, stuck, j);
      }
    }
  }
}
