/** Profile overlays of dev/merge_profile.py: a recursive, right-biased merge
    of mappings in which lists and scalars are replaced wholesale. */
module DeepMerge {
  import opened Prelude

  type Mapping = map<string, Tree>

  /** What a key holds after `over` has been merged onto `base`. */
  function MergeTree(base: Tree, over: Tree): Tree
    decreases over
  {
    if base.Dict? && over.Dict? then
      Dict(map k | k in base.m.Keys + over.m.Keys ::
             if k !in over.m then base.m[k]
             else if k in base.m then MergeTree(base.m[k], over.m[k])
             else over.m[k])
    else over
  }

  function Merge(base: Mapping, over: Mapping): Mapping {
    MergeTree(Dict(base), Dict(over)).m
  }

  lemma MergedKey(base: Tree, over: Tree, k: string)
    requires base.Dict? && over.Dict?
    ensures var r := MergeTree(base, over);
            && r.Dict?
            && (k in r.m <==> k in base.m || k in over.m)
            && (k in r.m ==> r.m[k] == if k !in over.m then base.m[k]
                                       else if k in base.m then MergeTree(base.m[k], over.m[k]) else over.m[k])
  {
  }

  /** `deep_merge`: copy the base, then walk the overlay's items. */
  method DeepMerge(base: Mapping, overlay: Mapping) returns (result: Mapping)
    ensures result == Merge(base, overlay)
    decreases Dict(overlay)
  {
    result := base;
    var todo := overlay.Keys;
    while todo != {}
      invariant todo <= overlay.Keys
      invariant result.Keys == base.Keys + (overlay.Keys - todo)
      invariant forall k :: k in result ==>
                  result[k] == if k in overlay && k !in todo then Merge(base, overlay)[k] else base[k]
      decreases todo
    {
      var key :| key in todo;
      todo := todo - {key};
      var val := overlay[key];
      MergedKey(Dict(base), Dict(overlay), key);
      assert Dict(overlay).m[key] == val;
      if key in result && result[key].Dict? && val.Dict? {
        var merged := DeepMerge(result[key].m, val.m);
        result := result[key := Dict(merged)];
      } else {
        result := result[key := val];
      }
    }
  }

  // -------------------------------------------------------------------- paths

  /** The value at a path of keys, if there is one. */
  function At(t: Tree, path: seq<string>): Option<Tree>
    decreases |path|
  {
    if path == [] then Some(t)
    else if t.Dict? && path[0] in t.m then At(t.m[path[0]], path[1..])
    else None
  }

  predicate IsLeaf(t: Option<Tree>) {
    t.Some? && !t.value.Dict?
  }

  /** Every leaf of the overlay is found, unchanged, in the merge. */
  lemma {:induction false} OverlayLeavesKept(base: Tree, over: Tree, path: seq<string>)
    requires IsLeaf(At(over, path))
    ensures At(MergeTree(base, over), path) == At(over, path)
    decreases |path|
  {
    if path != [] && base.Dict? && over.Dict? && path[0] in base.m {
      OverlayLeavesKept(base.m[path[0]], over.m[path[0]], path[1..]);
    }
  }

  /** A leaf of the base survives exactly when the overlay says nothing along
      its path, that is, has mappings down to a missing key. */
  predicate Silent(over: Tree, path: seq<string>)
    decreases |path|
  {
    over.Dict? && path != [] && (path[0] in over.m ==> Silent(over.m[path[0]], path[1..]))
  }

  lemma {:induction false} BaseLeavesKept(base: Tree, over: Tree, path: seq<string>)
    requires IsLeaf(At(base, path)) && Silent(over, path)
    ensures At(MergeTree(base, over), path) == At(base, path)
    decreases |path|
  {
    if path[0] in over.m {
      BaseLeavesKept(base.m[path[0]], over.m[path[0]], path[1..]);
    }
  }

  /** Nothing is invented: a leaf of the merge is a leaf of the overlay, or of
      the base where the overlay is silent. */
  lemma {:induction false} MergedLeavesHaveOrigin(base: Tree, over: Tree, path: seq<string>)
    requires IsLeaf(At(MergeTree(base, over), path))
    ensures At(MergeTree(base, over), path) == At(over, path)
         || (At(MergeTree(base, over), path) == At(base, path) && Silent(over, path))
    decreases |path|
  {
    if base.Dict? && over.Dict? && path[0] in over.m && path[0] in base.m {
      MergedLeavesHaveOrigin(base.m[path[0]], over.m[path[0]], path[1..]);
    }
  }

  // --------------------------------------------------------------------- laws

  /** The empty mapping is an identity on both sides. */
  lemma EmptyIsIdentity(a: Mapping)
    ensures Merge(map[], a) == a && Merge(a, map[]) == a
  {
  }

  /** `c` covers `a`: merging `c` onto `a` gives just `c`. */
  predicate Covers(c: Tree, a: Tree)
    decreases c
  {
    c.Dict? && a.Dict? ==> forall k :: k in a.m ==> k in c.m && Covers(c.m[k], a.m[k])
  }

  lemma {:induction false} CoveredIsReplaced(a: Tree, c: Tree)
    ensures MergeTree(a, c) == c <==> Covers(c, a)
    decreases c
  {
    if a.Dict? && c.Dict? {
      forall k | k in a.m && k in c.m ensures MergeTree(a.m[k], c.m[k]) == c.m[k] <==> Covers(c.m[k], a.m[k]) {
        CoveredIsReplaced(a.m[k], c.m[k]);
      }
      var r := MergeTree(a, c);
      if Covers(c, a) {
        assert r.m == c.m;
      } else {
        var k :| k in a.m && !(k in c.m && Covers(c.m[k], a.m[k]));
        assert k in r.m && (k in c.m ==> r.m[k] == MergeTree(a.m[k], c.m[k]));
      }
    }
  }

  lemma {:induction false} MergeCovers(a: Tree, b: Tree)
    ensures Covers(b, b) && Covers(MergeTree(a, b), b)
    decreases b
  {
    if b.Dict? {
      forall k | k in b.m ensures Covers(b.m[k], b.m[k]) {
        MergeCovers(Null, b.m[k]);
      }
      if a.Dict? {
        forall k | k in b.m ensures Covers(MergeTree(a, b).m[k], b.m[k]) {
          MergeCovers(if k in a.m then a.m[k] else Null, b.m[k]);
        }
      }
    }
  }

  /** Merging is idempotent, and a repeated overlay changes nothing. */
  lemma {:induction false} RepeatedOverlayAbsorbed(a: Tree, b: Tree)
    ensures MergeTree(a, a) == a
    ensures MergeTree(MergeTree(a, b), b) == MergeTree(a, b)
    decreases b
  {
    MergeCovers(Null, a);
    CoveredIsReplaced(a, a);
    if a.Dict? && b.Dict? {
      forall k | k in b.m ensures MergeTree(MergeTree(a, b).m[k], b.m[k]) == MergeTree(a, b).m[k] {
        RepeatedOverlayAbsorbed(if k in a.m then a.m[k] else b.m[k], b.m[k]);
      }
      assert MergeTree(MergeTree(a, b), b).m == MergeTree(a, b).m;
    } else {
      MergeCovers(Null, b);
      CoveredIsReplaced(b, b);
    }
  }

  /** Where the middle tree has a leaf between two mappings, the outer overlay
      must cover the base; elsewhere nothing is asked. */
  predicate Compatible(a: Tree, b: Tree, c: Tree)
    decreases c
  {
    a.Dict? && c.Dict? ==>
      if b.Dict? then forall k :: k in a.m && k in b.m && k in c.m ==> Compatible(a.m[k], b.m[k], c.m[k])
      else Covers(c, a)
  }

  /** Merging three trees is associative exactly when they are compatible. */
  lemma {:induction false} AssociativeIffCompatible(a: Tree, b: Tree, c: Tree)
    ensures MergeTree(MergeTree(a, b), c) == MergeTree(a, MergeTree(b, c)) <==> Compatible(a, b, c)
    decreases c
  {
    if a.Dict? && c.Dict? {
      if b.Dict? {
        AssociativeByKey(a, b, c);
        forall k
          ensures AssociativeAt(a, b, c, k) <==>
                    (k in a.m && k in b.m && k in c.m ==> Compatible(a.m[k], b.m[k], c.m[k]))
        {
          if k in a.m && k in b.m && k in c.m {
            AssociativeIffCompatible(a.m[k], b.m[k], c.m[k]);
          }
        }
      } else {
        CoveredIsReplaced(a, c);
      }
    }
  }

  predicate AssociativeAt(a: Tree, b: Tree, c: Tree, k: string)
    requires a.Dict? && b.Dict? && c.Dict?
  {
    k in a.m && k in b.m && k in c.m ==>
      MergeTree(MergeTree(a.m[k], b.m[k]), c.m[k]) == MergeTree(a.m[k], MergeTree(b.m[k], c.m[k]))
  }

  lemma AssociativeByKey(a: Tree, b: Tree, c: Tree)
    requires a.Dict? && b.Dict? && c.Dict?
    ensures MergeTree(MergeTree(a, b), c) == MergeTree(a, MergeTree(b, c)) <==> forall k :: AssociativeAt(a, b, c, k)
  {
    var ab, bc := MergeTree(a, b), MergeTree(b, c);
    var l, r := MergeTree(ab, c), MergeTree(a, bc);
    forall k
      ensures l.Dict? && r.Dict? && (k in l.m <==> k in r.m)
      ensures ((k in l.m && l.m[k] == r.m[k]) || k !in l.m) <==> AssociativeAt(a, b, c, k)
    {
      hide MergeTree;
      MergedKey(a, b, k);
      MergedKey(b, c, k);
      MergedKey(ab, c, k);
      MergedKey(a, bc, k);
    }
    assert l == r <==> l.m == r.m;
    assert l.m == r.m <==> forall k :: k in l.m ==> l.m[k] == r.m[k];
  }

  /** In particular when no path has a leaf in the middle tree and mappings in
      both outer trees. */
  lemma {:induction false} AssociativeWithoutConflict(a: Tree, b: Tree, c: Tree)
    requires forall p :: IsLeaf(At(b, p)) && At(a, p).Some? && At(c, p).Some? ==>
              !At(a, p).value.Dict? || !At(c, p).value.Dict?
    ensures Compatible(a, b, c)
    ensures MergeTree(MergeTree(a, b), c) == MergeTree(a, MergeTree(b, c))
    decreases c
  {
    if a.Dict? && c.Dict? {
      if b.Dict? {
        forall k | k in a.m && k in b.m && k in c.m ensures Compatible(a.m[k], b.m[k], c.m[k]) {
          forall p ensures At(a.m[k], p) == At(a, [k] + p) && At(b.m[k], p) == At(b, [k] + p) && At(c.m[k], p)
              == At(c, [k] + p) {
            assert ([k] + p)[1..] == p;
          }
          AssociativeWithoutConflict(a.m[k], b.m[k], c.m[k]);
        }
      } else {
        assert IsLeaf(At(b, []));
      }
    }
    AssociativeIffCompatible(a, b, c);
  }

  /** Associativity does fail: a leaf in the middle cuts off what the base
      holds below it. */
  lemma NotAssociative(v: Tree)
    ensures var a, b, c := map["x" := Dict(map["y" := v])], map["x" := Int(0)], map["x" := Dict(map[])];
            && Merge(Merge(a, b), c) == map["x" := Dict(map[])]
            && Merge(a, Merge(b, c)) == a
  {
    var a, b, c := map["x" := Dict(map["y" := v])], map["x" := Int(0)], map["x" := Dict(map[])];
    assert Merge(a, b) == b && Merge(b, c) == c && Merge(b, c)["x"].Dict?;
    assert MergeTree(Dict(map["y" := v]), Dict(map[])).m == map["y" := v];
    assert Merge(a, c) == a;
  }
}
