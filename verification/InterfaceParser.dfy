/** The `ifconfig` parser of src/styrened/services/hardware.py: one pass over
    the lines with three running variables and a flush at the end. The regular
    expressions are a record of three line classifiers. */
module InterfaceParser {
  import opened Prelude

  /** What each pattern extracts from a line, and the type of an interface. */
  datatype Patterns = Patterns(header: string -> Option<string>, ether: string -> Option<string>,
                               inet: string -> Option<string>, kind: string -> string)

  datatype Interface = Interface(name: string, kind: string, mac: Option<string>, ip: Option<string>)

  // -------------------------------------------------------- blocks of the output

  /** A header line and the lines under it. */
  datatype Block = Block(head: string, body: seq<string>)

  predicate IsHeader(p: Patterns, line: string) {
    p.header(line).Some?
  }

  /** The lines before the first header. */
  function Body(p: Patterns, lines: seq<string>): (r: seq<string>)
    ensures |r| <= |lines|
    ensures forall line :: line in r ==> !IsHeader(p, line)
    ensures |r| < |lines| ==> IsHeader(p, lines[|r|])
  {
    if lines == [] || IsHeader(p, lines[0]) then []
    else
      [lines[0]] + Body(p, lines[1..])
  }

  function Blocks(p: Patterns, lines: seq<string>): (blocks: seq<Block>)
    ensures forall b :: b in blocks ==> IsHeader(p, b.head) && forall line :: line in b.body ==> !IsHeader(p, line)
  {
    if lines == [] then []
    else (if IsHeader(p, lines[0]) then [Block(lines[0], Body(p, lines[1..]))] else []) + Blocks(p, lines[1..])
  }

  function Flatten(blocks: seq<Block>): seq<string> {
    if blocks == [] then [] else [blocks[0].head] + blocks[0].body + Flatten(blocks[1..])
  }

  /** Cutting into blocks loses nothing: preamble and blocks put together are
      the lines, and no block or preamble hides a header. */
  lemma {:induction false} BlocksPartition(p: Patterns, lines: seq<string>)
    ensures Body(p, lines) + Flatten(Blocks(p, lines)) == lines
  {
    if lines == [] {
      assert Blocks(p, lines) == [];
    } else {
      hide *;
      var first, rest := lines[0], lines[1..];
      BlocksPartition(p, rest);
      FlattenUnfold(p, lines);
      Regroup([first], Body(p, rest), Flatten(Blocks(p, rest)));
      assert [first] + rest == lines;
    }
  }

  lemma Regroup(a: seq<string>, b: seq<string>, c: seq<string>)
    ensures [] + (a + b + c) == (a + b) + c == a + (b + c)
  {
  }

  lemma FlattenUnfold(p: Patterns, lines: seq<string>)
    requires lines != []
    ensures var body, rest := Body(p, lines), lines[1..];
            if IsHeader(p, lines[0]) then
              body == [] && Flatten(Blocks(p, lines)) == [lines[0]] + Body(p, rest) + Flatten(Blocks(p, rest))
            else
              body == [lines[0]] + Body(p, rest) && Blocks(p, lines) == Blocks(p, rest)
  {
    BlocksUnfold(p, lines);
    hide Blocks;
    if IsHeader(p, lines[0]) {
      var b := Block(lines[0], Body(p, lines[1..]));
      assert ([b] + Blocks(p, lines[1..]))[1..] == Blocks(p, lines[1..]);
    }
  }

  lemma BlocksUnfold(p: Patterns, lines: seq<string>)
    requires lines != []
    ensures Blocks(p, lines)
            == (if IsHeader(p, lines[0]) then [Block(lines[0], Body(p, lines[1..]))] else []) + Blocks(p, lines[1..])
  {
  }

  // --------------------------------------------------- what a block says

  function LastEther(p: Patterns, body: seq<string>, start: Option<string>): Option<string> {
    if body == [] then start
    else LastEther(p, body[1..], if p.ether(body[0]).Some? then p.ether(body[0]) else start)
  }

  /** The first address on a line that is not an ether line. */
  function FirstInet(p: Patterns, body: seq<string>, start: Option<string>): Option<string> {
    if start.Some? || body == [] then start
    else FirstInet(p, body[1..], if p.ether(body[0]).Some? then None else p.inet(body[0]))
  }

  function Describe(p: Patterns, b: Block): Interface
    requires IsHeader(p, b.head)
  {
    var name := p.header(b.head).value;
    Interface(name, p.kind(name), LastEther(p, b.body, None), FirstInet(p, b.body, None))
  }

  function DescribeAll(p: Patterns, blocks: seq<Block>): seq<Interface>
    requires forall b :: b in blocks ==> IsHeader(p, b.head)
  {
    if blocks == [] then [] else [Describe(p, blocks[0])] + DescribeAll(p, blocks[1..])
  }

  /** The interfaces of the whole output, block by block. */
  function Interfaces(p: Patterns, lines: seq<string>): seq<Interface> {
    DescribeAll(p, Blocks(p, lines))
  }

  lemma {:induction false} LastEtherIs(p: Patterns, body: seq<string>, start: Option<string>)
    ensures (forall line :: line in body ==> p.ether(line).None?) ==> LastEther(p, body, start) == start
    ensures forall i :: 0 <= i < |body| && p.ether(body[i]).Some?
                        && (forall j :: i < j < |body| ==> p.ether(body[j]).None?) ==>
              LastEther(p, body, start) == p.ether(body[i])
  {
    if body != [] {
      var next := if p.ether(body[0]).Some? then p.ether(body[0]) else start;
      LastEtherIs(p, body[1..], next);
      forall i | 0 <= i < |body| && p.ether(body[i]).Some? && (forall j :: i < j < |body| ==> p.ether(body[j]).None?)
        ensures LastEther(p, body, start) == p.ether(body[i])
      {
        if i > 0 {
          assert body[1..][i - 1] == body[i];
        }
      }
    }
  }

  predicate GivesInet(p: Patterns, line: string) {
    p.ether(line).None? && p.inet(line).Some?
  }

  lemma {:induction false} FirstInetIs(p: Patterns, body: seq<string>, i: nat)
    requires i <= |body| && forall j :: 0 <= j < i ==> !GivesInet(p, body[j])
    requires i < |body| ==> GivesInet(p, body[i])
    ensures FirstInet(p, body, None) == if i < |body| then p.inet(body[i]) else None
  {
    if body != [] && i > 0 {
      assert !GivesInet(p, body[0]);
      FirstInetIs(p, body[1..], i - 1);
    }
  }

  // ---------------------------------------------------------------- the parser

  /** What the rest of the output adds to a state of the parser. */
  function Remaining(p: Patterns, name: Option<string>, mac: Option<string>, ip: Option<string>,
                     lines: seq<string>): seq<Interface>
  {
    var body := Body(p, lines);
    (if name.None? then []
     else [Interface(name.value, p.kind(name.value), LastEther(p, body, mac), FirstInet(p, body, ip))])
    + Interfaces(p, lines)
  }

  lemma InterfacesUnfold(p: Patterns, lines: seq<string>)
    requires lines != []
    ensures Interfaces(p, lines) == if IsHeader(p, lines[0])
              then Remaining(p, p.header(lines[0]), None, None, lines[1..])
                                    else Interfaces(p, lines[1..])
  {
    if IsHeader(p, lines[0]) {
      assert Blocks(p, lines)[1..] == Blocks(p, lines[1..]);
    } else {
      assert Blocks(p, lines) == Blocks(p, lines[1..]);
    }
  }

  /** One line of the loop. */
  lemma RemainingStep(p: Patterns, name: Option<string>, mac: Option<string>, ip: Option<string>, lines: seq<string>)
    requires lines != []
    ensures var line, rest := lines[0], lines[1..];
            Remaining(p, name, mac, ip, lines)
            == if p.header(line).Some? then
                 (if name.Some? then [Interface(name.value, p.kind(name.value), mac, ip)] else [])
                 + Remaining(p, p.header(line), None, None, rest)
               else if p.ether(line).Some? then Remaining(p, name, p.ether(line), ip, rest)
               else Remaining(p, name, mac, if ip.None? then p.inet(line) else ip, rest)
  {
    hide Interfaces;
    InterfacesUnfold(p, lines);
    if name.Some? && !IsHeader(p, lines[0]) {
      var body, rest := Body(p, lines), Body(p, lines[1..]);
      assert body == [lines[0]] + rest && body[1..] == rest;
    }
  }

  lemma NothingRemains(p: Patterns, name: Option<string>, mac: Option<string>, ip: Option<string>)
    ensures Remaining(p, name, mac, ip, [])
            == if name.Some? then [Interface(name.value, p.kind(name.value), mac, ip)] else []
  {
    assert Body(p, []) == [];
    assert Blocks(p, []) == [];
  }

  /** The single pass, with its final flush, finds the same interfaces as the
      cut into blocks; lines before the first header contribute nothing. */
  method ParseInterfaces(p: Patterns, lines: seq<string>) returns (interfaces: seq<Interface>)
    ensures interfaces == Interfaces(p, lines)
  {
    hide Remaining, Interfaces;
    interfaces := [];
    var name: Option<string> := None;
    var mac: Option<string> := None;
    var ip: Option<string> := None;
    var i := 0;
    Beginning(p, lines);
    while i < |lines|
      invariant 0 <= i <= |lines|
      invariant interfaces + Remaining(p, name, mac, ip, lines[i..]) == Interfaces(p, lines)
    {
      var line := lines[i];
      RemainingStep(p, name, mac, ip, lines[i..]);
      assert lines[i..][1..] == lines[i + 1..] && lines[i..][0] == line;
      i := i + 1;
      var header := p.header(line);
      if header.Some? {
        if name.Some? {
          interfaces := interfaces + [Interface(name.value, p.kind(name.value), mac, ip)];
        }
        name, mac, ip := header, None, None;
        continue;
      }
      var ether := p.ether(line);
      if ether.Some? {
        mac := ether;
        continue;
      }
      var inet := p.inet(line);
      if inet.Some? && ip.None? {
        ip := inet;
      }
    }
    NothingRemains(p, name, mac, ip);
    assert lines[i..] == [];
    if name.Some? {
      interfaces := interfaces + [Interface(name.value, p.kind(name.value), mac, ip)];
    }
  }

  lemma Beginning(p: Patterns, lines: seq<string>)
    ensures Remaining(p, None, None, None, lines[0..]) == Interfaces(p, lines)
  {
    assert lines[0..] == lines;
  }

  /** A preamble changes nothing. */
  lemma {:induction false} PreambleIgnored(p: Patterns, preamble: seq<string>, lines: seq<string>)
    requires forall line :: line in preamble ==> !IsHeader(p, line)
    ensures Interfaces(p, preamble + lines) == Interfaces(p, lines)
  {
    hide Interfaces;
    if preamble == [] {
      assert preamble + lines == lines;
    } else {
      assert (preamble + lines)[1..] == preamble[1..] + lines;
      assert preamble[0] in preamble;
      InterfacesUnfold(p, preamble + lines);
      PreambleIgnored(p, preamble[1..], lines);
    }
  }
}
