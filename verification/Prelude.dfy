/** Small shared types: optional values, results, bytes, and the tree of
    values that YAML files and msgpack payloads decode to. */
module Prelude {

  datatype Option<+T> = None | Some(value: T)

  datatype Result<+T, +E> = Ok(value: T) | Err(error: E) {
    predicate IsFailure() {
      Err?
    }

    function PropagateFailure<U>(): Result<U, E>
      requires Err?
    {
      Result<U, E>.Err(error)
    }

    function Extract(): T
      requires Ok?
    {
      value
    }
  }

  type Byte = x: int | 0 <= x < 256
  type Bytes = seq<Byte>

  /** A decoded YAML or msgpack value. Mapping keys are strings. */
  datatype Tree =
    | Null
    | Bool(b: bool)
    | Int(i: int)
    | Real(r: real)
    | Str(s: string)
    | List(xs: seq<Tree>)
    | Dict(m: map<string, Tree>)

  /** An injective map has as many values as keys. */
  lemma {:induction false} InjectiveImage<K, V>(m: map<K, V>)
    requires forall a, b {:trigger m[a], m[b]} :: a in m && b in m && m[a] == m[b] ==> a == b
    ensures |m.Values| == |m.Keys|
    decreases |m|
  {
    if m.Items != {} {
      var entry :| entry in m.Items;
      var k := entry.0;
      var rest := m - {k};
      InjectiveImage(rest);
      assert m.Values == rest.Values + {m[k]} by {
        forall v | v in m.Values ensures v in rest.Values + {m[k]} {
          var a :| a in m && m[a] == v;
          if a != k {
            assert rest[a] == v;
          }
        }
      }
      assert m.Keys == rest.Keys + {k};
      forall a | a in rest ensures rest[a] != m[k] {
        assert rest[a] == m[a];
      }
    }
  }
}
