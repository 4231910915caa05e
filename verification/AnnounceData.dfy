/** The colon-separated announce format of src/styrened/models/mesh_device.py,
    with its 4-, 6-, 7- and 8-field generations. */
module AnnounceData {
  import opened Prelude
  import opened Strings

  datatype Device = Device(name: string, version: Option<string>, capabilities: Option<seq<string>>,
                           lxmfDestination: Option<string>, shortName: Option<string>,
                           fingerprint: Option<string>, nomadnetDestination: Option<string>)

  // --------------------------------------------------------------- fingerprints

  predicate FingerprintChar(c: char) {
    'a' <= c <= 'z' || 'A' <= c <= 'Z' || '0' <= c <= '9' || c == '.' || c == '_' || c == '|' || c == '-'
  }

  predicate PlainFingerprint(s: string) {
    1 <= |s| <= 64 && forall i :: 0 <= i < |s| ==> FingerprintChar(s[i])
  }

  /** `_sanitize_fingerprint`; the pattern's `$` also lets one final newline
      through, within the 64 characters. */
  function Sanitize(raw: Option<string>): Option<string> {
    if raw.None? || raw.value == "" || |raw.value| > 64 then None
    else
      var s := raw.value;
      if PlainFingerprint(s) || (s[|s| - 1] == '\n' && PlainFingerprint(s[..|s| - 1])) then raw else None
  }

  const FINGERPRINT_CHARS := LOWER_LETTERS + UPPER_LETTERS + DIGITS + "._|-"

  /** A fingerprint is kept unchanged or dropped: kept are 1 to 64 characters
      of the alphabet, the last of which may be a newline instead if it is not
      the only one. */
  lemma FingerprintIff(raw: string)
    ensures Sanitize(None) == None
    ensures Sanitize(Some(raw)) == Some(raw) || Sanitize(Some(raw)) == None
    ensures Sanitize(Some(raw)).Some? <==>
              && 0 < |raw| <= 64
              && (forall i :: 0 <= i < |raw| - 1 ==> raw[i] in FINGERPRINT_CHARS)
              && (raw[|raw| - 1] in FINGERPRINT_CHARS || (raw[|raw| - 1] == '\n' && |raw| >= 2))
  {
    forall c: char ensures FingerprintChar(c) <==> c in FINGERPRINT_CHARS {
      FingerprintAlphabet(c);
    }
    hide FingerprintChar;
  }

  lemma FingerprintAlphabet(c: char)
    ensures FingerprintChar(c) <==> c in FINGERPRINT_CHARS
  {
    LowerLetters(c);
    UpperLetters(c);
    Digits(c);
    hide LOWER_LETTERS, UPPER_LETTERS, DIGITS;
  }

  // -------------------------------------------------------------------- parsing

  /** `parts[i] if len(parts) > i and parts[i] else None`. */
  function Part(parts: seq<string>, i: nat): Option<string> {
    if i < |parts| && parts[i] != "" then Some(parts[i]) else None
  }

  function FromParts(parts: seq<string>): Device {
    Device(if |parts| > 1 then parts[1] else "styrene-node", if |parts| > 2 then Some(parts[2]) else None,
           if Part(parts, 3).Some? then Some(Split(parts[3], ',')) else None,
           Part(parts, 4), Part(parts, 5), Sanitize(Part(parts, 6)), Part(parts, 7))
  }

  /** The styrene branch of `parse_announce_data`, on decoded text; none when
      the text is of another format. */
  function Parse(text: string): Option<Device> {
    var decoded := Strip(text);
    if Lower(decoded) != "styrene" && !("styrene:" <= Lower(decoded)) then None
    else if ':' in decoded then Some(FromParts(Split(decoded, ':')))
    else Some(Device("styrene-node", None, None, None, None, None, None))
  }

  /** The bare tag, in any case and with blanks around it, is a device of which
      nothing else is known. */
  lemma BareTag(text: string)
    requires Lower(Strip(text)) == "styrene"
    ensures Parse(text) == Some(Device("styrene-node", None, None, None, None, None, None))
  {
    hide Strip, Split, FromParts;
    var decoded := Strip(text);
    forall i | 0 <= i < |decoded| ensures decoded[i] != ':' {
      assert Lower(decoded)[i] == "styrene"[i];
    }
  }

  // ------------------------------------------------------------------- printing

  /** An announce line: the tag and any number of further fields. */
  function Print(fields: seq<string>): string {
    Join(["styrene"] + fields, ':')
  }

  predicate ColonFree(fields: seq<string>) {
    forall f :: f in fields ==> ':' !in f
  }

  lemma PrintStarts(fields: seq<string>)
    requires fields != []
    ensures var s := Print(fields); "styrene:" <= s && "styrene:" <= Lower(s) && ':' in s
  {
    var s := Print(fields);
    assert (["styrene"] + fields)[1..] == fields;
    assert s == "styrene" + [':'] + Join(fields, ':');
    assert s[..8] == "styrene:";
    assert Lower(s)[..8] == "styrene:";
    assert s[7] == ':';
  }

  /** Parsing a printed line looks the fields up by position, whatever their
      number, if they are free of colons and the line has no outer blanks. */
  lemma ParsePrint(fields: seq<string>)
    requires fields != [] && ColonFree(fields) && Trimmed(Print(fields))
    ensures Parse(Print(fields)) == Some(FromParts(["styrene"] + fields))
  {
    var parts := ["styrene"] + fields;
    forall p | p in parts ensures ':' !in p {
    }
    SplitJoin(parts, ':');
    PrintStarts(fields);
    StripOfTrimmed(Print(fields));
  }

  /** Conversely, every line that is read by position is the print of its
      parts, up to outer blanks and the case of the tag. */
  lemma ParsedIsPrint(text: string)
    ensures Parse(text).Some? && ':' in Strip(text) <==>
              exists tag, fields :: IsAnnounceOf(text, tag, fields)
    ensures forall tag, fields :: IsAnnounceOf(text, tag, fields) ==> Parse(text) == Some(FromParts([tag] + fields))
  {
    hide Strip;
    var decoded := Strip(text);
    forall tag, fields | IsAnnounceOf(text, tag, fields)
      ensures Parse(text) == Some(FromParts([tag] + fields)) && ':' in decoded
    {
      var parts := [tag] + fields;
      assert parts[1..] == fields && decoded == tag + [':'] + Join(fields, ':');
      assert decoded[|tag|] == ':';
      SplitJoin(parts, ':');
      assert Lower(decoded)[..8] == Lower(tag) + ":";
    }
    if Parse(text).Some? && ':' in decoded {
      var parts := Split(decoded, ':');
      JoinSplit(decoded, ':');
      assert parts == [parts[0]] + parts[1..];
      TagOf(decoded);
      assert IsAnnounceOf(text, parts[0], parts[1..]);
    }
  }

  /** The stripped line is a tag reading "styrene" in any case, and fields. */
  ghost predicate IsAnnounceOf(text: string, tag: string, fields: seq<string>) {
    && fields != [] && ColonFree([tag] + fields) && Lower(tag) == "styrene"
    && Strip(text) == Join([tag] + fields, ':')
  }

  lemma TagOf(decoded: string)
    requires ':' in decoded && (Lower(decoded) == "styrene" || "styrene:" <= Lower(decoded))
    ensures var parts := Split(decoded, ':');
            |parts| > 1 && Lower(parts[0]) == "styrene"
  {
    var colon :| 0 <= colon < |decoded| && decoded[colon] == ':';
    assert Lower(decoded)[colon] == ':' && ':' !in "styrene";
    var tag, rest := decoded[..7], decoded[8..];
    assert Lower(decoded)[7] == ':' && decoded[7] == ':';
    assert decoded == tag + [':'] + rest;
    forall i | 0 <= i < 7 ensures tag[i] != ':' && Lower(tag)[i] == "styrene"[i] {
      assert Lower(decoded)[i] == "styrene:"[i];
    }
    SplitAfterFirst(tag, rest, ':');
  }

  // -------------------------------------------------------- the announce record

  datatype Announce = Announce(host: string, version: string, capabilities: seq<string>, lxmf: Option<string>,
                               shortName: Option<string>, fingerprint: Option<string>, nomadnet: Option<string>)

  function TextOf(o: Option<string>): string {
    if o.Some? then o.value else ""
  }

  /** All seven fields after the tag: the 8-field generation. */
  function Fields(a: Announce): seq<string> {
    [a.host, a.version, Join(a.capabilities, ','), TextOf(a.lxmf), TextOf(a.shortName), TextOf(a.fingerprint),
     TextOf(a.nomadnet)]
  }

  /** What a reader sees of an announce. */
  function Seen(a: Announce): Device {
    Device(a.host, Some(a.version), if a.capabilities == [] then None else Some(a.capabilities), a.lxmf, a.shortName,
           a.fingerprint, a.nomadnet)
  }

  predicate Printable(a: Announce) {
    ColonFree(Fields(a)) && Trimmed(Print(Fields(a))) && forall c :: c in a.capabilities ==> ',' !in c
  }

  lemma CapabilitiesSurvive(caps: seq<string>)
    requires forall c :: c in caps ==> ',' !in c
    ensures var text := Join(caps, ',');
            (if text == "" then None else Some(Split(text, ',')))
            == if caps == [] || caps == [""] then None else Some(caps)
  {
    if caps != [] {
      SplitJoin(caps, ',');
      if Join(caps, ',') == "" {
        assert Split("", ',') == [""];
      }
    }
  }

  /** Printing and parsing recovers every field of a printable announce
      exactly when no optional field is present but empty, the fingerprint is
      one the parser lets through, and the capabilities are not one empty
      name. */
  lemma RecoveredIff(a: Announce)
    requires Printable(a)
    ensures Parse(Print(Fields(a))) == Some(Seen(a)) <==>
              && a.lxmf != Some("") && a.shortName != Some("") && a.nomadnet != Some("")
              && Sanitize(a.fingerprint) == a.fingerprint
              && a.capabilities != [""]
  {
    hide Split, Join, Strip, Lower, PlainFingerprint;
    ParsePrint(Fields(a));
    CapabilitiesSurvive(a.capabilities);
    var parts := ["styrene"] + Fields(a);
    assert parts[6] == TextOf(a.fingerprint) && parts[7] == TextOf(a.nomadnet);
    assert parts[3] == Join(a.capabilities, ',');
  }

  /** A line cut after any number of fields means the same on the fields it
      has, and nothing on the rest: older readers and older writers agree. */
  lemma PrefixAgrees(fields: seq<string>, n: nat)
    requires 0 < n <= |fields| && ColonFree(fields) && Trimmed(Print(fields)) && Trimmed(Print(fields[..n]))
    ensures Parse(Print(fields)).Some? && Parse(Print(fields[..n])).Some?
    ensures var long, short := Parse(Print(fields)).value, Parse(Print(fields[..n])).value;
            && short.name == long.name
            && short.version == (if n >= 2 then long.version else None)
            && short.capabilities == (if n >= 3 then long.capabilities else None)
            && short.lxmfDestination == (if n >= 4 then long.lxmfDestination else None)
            && short.shortName == (if n >= 5 then long.shortName else None)
            && short.fingerprint == (if n >= 6 then long.fingerprint else None)
            && short.nomadnetDestination == (if n >= 7 then long.nomadnetDestination else None)
  {
    hide Split, Join, Strip, Lower, PlainFingerprint;
    forall f | f in fields[..n] ensures ':' !in f {
      assert f in fields;
    }
    ParsePrint(fields);
    ParsePrint(fields[..n]);
    var long, short := ["styrene"] + fields, ["styrene"] + fields[..n];
    assert forall i :: 0 <= i < |short| ==> short[i] == long[i];
  }

  /** The line the command-line announcer builds. */
  function CliLine(host: string, version: string, fingerprint: string): string {
    "styrene:" + host + ":" + version + ":cli:::" + fingerprint
  }

  lemma CliLineIsAnnounce(host: string, version: string, fingerprint: string)
    ensures CliLine(host, version, fingerprint) == Print([host, version, "cli", "", "", fingerprint])
  {
    assert Join([fingerprint], ':') == fingerprint;
    assert Join(["", fingerprint], ':') == ":" + fingerprint by {
      assert ["", fingerprint][1..] == [fingerprint];
    }
    assert Join(["", "", fingerprint], ':') == "::" + fingerprint by {
      assert ["", "", fingerprint][1..] == ["", fingerprint];
    }
    assert Join(["cli", "", "", fingerprint], ':') == "cli:::" + fingerprint by {
      assert ["cli", "", "", fingerprint][1..] == ["", "", fingerprint];
    }
    assert Join([version, "cli", "", "", fingerprint], ':') == version + ":cli:::" + fingerprint by {
      assert [version, "cli", "", "", fingerprint][1..] == ["cli", "", "", fingerprint];
    }
    assert Join([host, version, "cli", "", "", fingerprint], ':') == host + ":" + version + ":cli:::" + fingerprint by {
      assert [host, version, "cli", "", "", fingerprint][1..] == [version, "cli", "", "", fingerprint];
    }
    var fields := [host, version, "cli", "", "", fingerprint];
    assert (["styrene"] + fields)[1..] == fields;
  }

  /** It is read as a 7-field announce with one capability and no addresses. */
  lemma CliLineRead(host: string, version: string, fingerprint: string)
    requires ':' !in host && ':' !in version && PlainFingerprint(fingerprint)
    ensures Parse(CliLine(host, version, fingerprint))
            == Some(Device(host, Some(version), Some(["cli"]), None, None, Some(fingerprint), None))
  {
    hide Split, Join, Strip, Lower, PlainFingerprint, CliLine, Sanitize;
    var fields := [host, version, "cli", "", "", fingerprint];
    CliLineIsAnnounce(host, version, fingerprint);
    CliFieldsPrintable(host, version, fingerprint);
    ParsePrint(fields);
    SplitSingle("cli", ',');
    PlainIsKept(fingerprint);
    var parts := ["styrene"] + fields;
    assert parts == ["styrene", host, version, "cli", "", "", fingerprint];
  }

  lemma PlainIsKept(fingerprint: string)
    requires PlainFingerprint(fingerprint)
    ensures fingerprint != "" && Sanitize(Some(fingerprint)) == Some(fingerprint)
  {
  }

  lemma CliFieldsPrintable(host: string, version: string, fingerprint: string)
    requires ':' !in host && ':' !in version && PlainFingerprint(fingerprint)
    ensures ColonFree([host, version, "cli", "", "", fingerprint])
    ensures Trimmed(CliLine(host, version, fingerprint))
  {
    var s := CliLine(host, version, fingerprint);
    assert s[0] == 's';
    assert s[|s| - 1] == fingerprint[|fingerprint| - 1] && FingerprintChar(s[|s| - 1]);
    assert ':' !in fingerprint;
  }
}
