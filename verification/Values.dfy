/** How the configuration loader reads dynamically typed values: truth, text,
    booleans, integers and iteration, as Python defines them. */
module Values {
  import opened Prelude
  import opened Strings

  /** What the loader takes from its surroundings: home directories, the text
      Python gives numbers and collections, the numbers `int()` and `float()`
      read from text, the insertion order of a mapping's keys, and the texts
      of the default reply and of the chatbot's default prompt. */
  datatype Host = Host(
    home: string,
    userHome: string -> Option<string>,
    repr: Tree -> string,
    intOf: string -> Option<int>,
    realOf: string -> Option<real>,
    keyOrder: map<string, Tree> -> seq<string>,
    autoReply: string,
    systemPrompt: string)

  /** The exceptions loading can end in. */
  datatype Fault = AttributeError | TypeError | ValueError | RuntimeError | PoisonPill(keys: seq<string>)

  predicate Truthy(t: Tree) {
    match t
    case Null => false
    case Bool(b) => b
    case Int(i) => i != 0
    case Real(r) => r != 0.0
    case Str(s) => s != []
    case List(xs) => xs != []
    case Dict(m) => m != map[]
  }

  /** `str(value)`. */
  function Text(host: Host, t: Tree): string {
    match t
    case Str(s) => s
    case Null => "None"
    case Bool(b) => if b then "True" else "False"
    case _ => host.repr(t)
  }

  /** `_parse_bool`. */
  predicate ParseBool(t: Tree) {
    match t
    case Bool(b) => b
    case Str(s) => Lower(s) in ["true", "yes", "1", "on"]
    case _ => Truthy(t)
  }

  /** `int(value)`: a float is cut towards zero. */
  function ParseInt(host: Host, t: Tree): Result<int, Fault> {
    match t
    case Int(i) => Ok(i)
    case Real(r) => Ok(if r >= 0.0 then r.Floor else -(-r).Floor)
    case Bool(b) => Ok(if b then 1 else 0)
    case Str(s) => (match host.intOf(s) case None => Err(ValueError) case Some(i) => Ok(i))
    case _ => Err(TypeError)
  }

  /** `float(value)`. */
  function ParseReal(host: Host, t: Tree): Result<real, Fault> {
    match t
    case Real(r) => Ok(r)
    case Int(i) => Ok(i as real)
    case Bool(b) => Ok(if b then 1.0 else 0.0)
    case Str(s) => (match host.realOf(s) case None => Err(ValueError) case Some(r) => Ok(r))
    case _ => Err(TypeError)
  }

  function Strs(ss: seq<string>): (ts: seq<Tree>)
    ensures |ts| == |ss| && forall i :: 0 <= i < |ss| ==> ts[i] == Str(ss[i])
  {
    seq(|ss|, i requires 0 <= i < |ss| => Str(ss[i]))
  }

  /** What `for x in value` visits: a list's items, a string's characters, a
      mapping's keys. */
  function Elements(host: Host, t: Tree): Result<seq<Tree>, Fault> {
    match t
    case List(xs) => Ok(xs)
    case Str(s) => Ok(Strs(seq(|s|, i requires 0 <= i < |s| => [s[i]])))
    case Dict(m) => Ok(Strs(host.keyOrder(m)))
    case _ => Err(TypeError)
  }

  /** `mapping.get(key, default)`. */
  function Get(m: map<string, Tree>, key: string, default: Tree): Tree {
    if key in m then m[key] else default
  }
}
