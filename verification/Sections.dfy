/** Reading and writing the keys of a configuration section, and paths that
    start at a home directory. */
module Sections {
  import opened Prelude
  import opened Values

  type Section = map<string, Tree>

  // -------------------------------------------------------------------- writing

  /** Conditional assignment: `if ...: d[key] = value`. */
  function With(m: Section, key: string, value: Option<Tree>): Section {
    if value.Some? then m[key := value.value] else m
  }

  function When(condition: bool, value: Tree): Option<Tree> {
    if condition then Some(value) else None
  }

  function StrOf(s: Option<string>): Option<Tree> {
    if s.Some? then Some(Str(s.value)) else None
  }

  function IntOf(i: Option<int>): Option<Tree> {
    if i.Some? then Some(Int(i.value)) else None
  }

  function BoolOf(b: Option<bool>): Option<Tree> {
    if b.Some? then Some(Bool(b.value)) else None
  }

  // -------------------------------------------------------------------- reading

  function BoolAt(m: Section, key: string, old_: bool): bool {
    if key in m then ParseBool(m[key]) else old_
  }

  function IntAt(host: Host, m: Section, key: string, old_: int): Result<int, Fault> {
    if key in m then ParseInt(host, m[key]) else Ok(old_)
  }

  function SectionAt(m: Section, key: string): Option<Section> {
    if key in m && m[key].Dict? then Some(m[key].m) else None
  }

  /** `m.get(key)` when it is present and true, as text. */
  function TextAt(host: Host, m: Section, key: string): Option<string> {
    if key in m && Truthy(m[key]) then Some(Text(host, m[key])) else None
  }

  // ---------------------------------------------------------------------- paths

  function FirstSlash(s: string): (i: nat)
    ensures i <= |s|
  {
    if s == [] || s[0] == '/' then 0 else 1 + FirstSlash(s[1..])
  }

  /** `Path(s).expanduser()`. */
  function ExpandUser(host: Host, s: string): Result<string, Fault> {
    if s == [] || s[0] != '~' then Ok(s)
    else
      var i := FirstSlash(s);
      if i <= 1 then Ok(host.home + s[i..])
      else match host.userHome(s[1..i])
           case None => Err(RuntimeError)
           case Some(home) => Ok(home + s[i..])
  }

  function PathAt(host: Host, m: Section, key: string): Result<Option<string>, Fault> {
    match TextAt(host, m, key)
    case None => Ok(None)
    case Some(s) => var path :- ExpandUser(host, s); Ok(Some(path))
  }

  /** Home directories are absolute. */
  ghost predicate HostOk(host: Host) {
    && host.home != [] && host.home[0] == '/'
    && forall user :: host.userHome(user).Some? ==>
         host.userHome(user).value != [] && host.userHome(user).value[0] == '/'
  }

  lemma ExpandedIsStable(host: Host, s: string)
    requires HostOk(host) && ExpandUser(host, s).Ok?
    ensures var e := ExpandUser(host, s).value;
            && ExpandUser(host, e) == Ok(e)
            && (e == s <==> s == [] || s[0] != '~')
            && (e == s || (e != [] && e[0] == '/'))
  {
  }

  function NormalPath(host: Host, o: Option<string>): Result<Option<string>, Fault> {
    if o.None? || o.value == "" then Ok(None)
    else var path :- ExpandUser(host, o.value); Ok(Some(path))
  }

  predicate PlainPath(o: Option<string>) {
    o.Some? ==> o.value != "" && o.value[0] != '~'
  }

  lemma PathFixpoint(host: Host, o: Option<string>)
    requires HostOk(host)
    ensures NormalPath(host, o) == Ok(o) <==> PlainPath(o)
    ensures NormalPath(host, o).Ok? ==> NormalPath(host, NormalPath(host, o).value) == NormalPath(host, o)
  {
    if o.Some? && o.value != "" && ExpandUser(host, o.value).Ok? {
      ExpandedIsStable(host, o.value);
    }
  }
}
