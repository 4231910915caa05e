/** Text operations the configuration and announce parsers rely on: strip,
    lower and upper case, code-point order, split and join. Case mapping is
    over the ASCII letters; other characters are left alone. */
module Strings {

  // -------------------------------------------------------------------- strip

  /** The characters Python's `str.strip` removes. */
  predicate IsSpace(c: char) {
    var x := c as int;
    || 9 <= x <= 13 || 28 <= x <= 32 || x == 0x85 || x == 0xA0 || x == 0x1680 || 0x2000 <= x <= 0x200A
    || x == 0x2028 || x == 0x2029 || x == 0x202F || x == 0x205F || x == 0x3000
  }

  predicate Trimmed(s: string) {
    s == [] || (!IsSpace(s[0]) && !IsSpace(s[|s| - 1]))
  }

  function StripLeft(s: string): (r: string)
    ensures r == [] || !IsSpace(r[0])
    ensures exists i :: 0 <= i <= |s| && r == s[i..] && forall j :: 0 <= j < i ==> IsSpace(s[j])
  {
    if s == [] then
      assert s == s[0..];
      s
    else if IsSpace(s[0]) then
      var r := StripLeft(s[1..]);
      assert exists i :: 0 <= i <= |s| && r == s[i..] && forall j :: 0 <= j < i ==> IsSpace(s[j]) by {
        var i :| 0 <= i <= |s[1..]| && r == s[1..][i..] && forall j :: 0 <= j < i ==> IsSpace(s[1..][j]);
        assert r == s[i + 1..];
        forall j | 0 <= j < i + 1 ensures IsSpace(s[j]) {
          if j > 0 {
            assert s[j] == s[1..][j - 1];
          }
        }
      }
      r
    else
      assert s == s[0..];
      s
  }

  function StripRight(s: string): (r: string)
    ensures r == [] || !IsSpace(r[|r| - 1])
    ensures |r| <= |s| && r == s[..|r|] && forall j :: |r| <= j < |s| ==> IsSpace(s[j])
  {
    if s == [] then s
    else if IsSpace(s[|s| - 1]) then StripRight(s[..|s| - 1])
    else s
  }

  function Strip(s: string): (r: string)
    ensures Trimmed(r)
    ensures r == [] <==> forall j :: 0 <= j < |s| ==> IsSpace(s[j])
  {
    var l := StripLeft(s);
    var r := StripRight(l);
    assert r == [] <==> forall j :: 0 <= j < |s| ==> IsSpace(s[j]) by {
      var i :| 0 <= i <= |s| && l == s[i..] && forall j :: 0 <= j < i ==> IsSpace(s[j]);
      if r != [] {
        assert s[i] == r[0];
      }
    }
    r
  }

  lemma StripOfTrimmed(s: string)
    requires Trimmed(s)
    ensures Strip(s) == s
  {
  }

  lemma StripFixpoint(s: string)
    ensures Strip(s) == s <==> Trimmed(s)
    ensures Strip(Strip(s)) == Strip(s)
  {
    StripOfTrimmed(Strip(s));
    if Trimmed(s) {
      StripOfTrimmed(s);
    }
  }

  /** White space is what the Unicode database calls so. */
  lemma SpacesAre(c: char)
    ensures IsSpace(c) <==>
              c as int in {0x09, 0x0A, 0x0B, 0x0C, 0x0D, 0x1C, 0x1D, 0x1E, 0x1F, 0x20, 0x85, 0xA0, 0x1680, 0x2000,
                           0x2001, 0x2002, 0x2003, 0x2004, 0x2005, 0x2006, 0x2007, 0x2008, 0x2009, 0x200A, 0x2028,
                           0x2029, 0x202F, 0x205F, 0x3000}
  {
  }

  lemma {:induction false} StripLeftAt(t: string, i: nat)
    requires i <= |t| && (forall k :: 0 <= k < i ==> IsSpace(t[k])) && (i < |t| ==> !IsSpace(t[i]))
    ensures StripLeft(t) == t[i..]
    decreases i
  {
    hide IsSpace;
    if i == 0 {
      assert t == t[0..];
    } else {
      StripLeftAt(t[1..], i - 1);
    }
  }

  lemma {:induction false} StripRightAt(t: string, j: nat)
    requires j <= |t| && (forall k :: j <= k < |t| ==> IsSpace(t[k])) && (j > 0 ==> !IsSpace(t[j - 1]))
    ensures StripRight(t) == t[..j]
    decreases |t|
  {
    hide IsSpace;
    if j == |t| {
      assert t == t[..j];
    } else {
      StripRightAt(t[..|t| - 1], j);
      assert t[..|t| - 1][..j] == t[..j];
    }
  }

  /** Stripping takes white space from the ends and nothing else. */
  lemma StripTakesEnds(before: string, s: string, after: string)
    requires Trimmed(s) && s != "" && forall c :: c in before + after ==> IsSpace(c)
    ensures Strip(before + s + after) == s
  {
    hide IsSpace, StripLeft, StripRight;
    var t := before + s + after;
    forall i | 0 <= i < |before| ensures IsSpace(t[i]) {
      assert before[i] in before + after;
    }
    StripLeftAt(t, |before|);
    var l := t[|before|..];
    forall i | |s| <= i < |l| ensures IsSpace(l[i]) {
      assert after[i - |s|] in before + after;
    }
    StripRightAt(l, |s|);
    assert l[..|s|] == s;
  }

  // --------------------------------------------------------------------- case

  const LOWER_LETTERS := "abcdefghijklmnopqrstuvwxyz"
  const UPPER_LETTERS := "ABCDEFGHIJKLMNOPQRSTUVWXYZ"
  const DIGITS := "0123456789"

  function LowerChar(c: char): char {
    if 'A' <= c <= 'Z' then (c as int + 32) as char else c
  }

  function UpperChar(c: char): char {
    if 'a' <= c <= 'z' then (c as int - 32) as char else c
  }

  function Lower(s: string): (r: string)
    ensures |r| == |s| && forall i :: 0 <= i < |s| ==> r[i] == LowerChar(s[i])
  {
    seq(|s|, i requires 0 <= i < |s| => LowerChar(s[i]))
  }

  function Upper(s: string): (r: string)
    ensures |r| == |s| && forall i :: 0 <= i < |s| ==> r[i] == UpperChar(s[i])
  {
    seq(|s|, i requires 0 <= i < |s| => UpperChar(s[i]))
  }

  lemma LowerLetters(c: char)
    ensures 'a' <= c <= 'z' <==> c in LOWER_LETTERS
    ensures 'a' <= c <= 'z' ==> LOWER_LETTERS[c as int - 'a' as int] == c
  {
  }

  lemma UpperLetters(c: char)
    ensures 'A' <= c <= 'Z' <==> c in UPPER_LETTERS
    ensures 'A' <= c <= 'Z' ==> UPPER_LETTERS[c as int - 'A' as int] == c
  {
  }

  lemma Digits(c: char)
    ensures '0' <= c <= '9' <==> c in DIGITS
  {
  }

  /** Case mapping exchanges the letters of the two alphabets at one place and
      leaves all other characters alone. */
  lemma CaseOfLetters(c: char, i: nat)
    requires i < 26
    ensures LowerChar(UPPER_LETTERS[i]) == LOWER_LETTERS[i] && UpperChar(LOWER_LETTERS[i]) == UPPER_LETTERS[i]
    ensures c !in UPPER_LETTERS ==> LowerChar(c) == c
    ensures c !in LOWER_LETTERS ==> UpperChar(c) == c
  {
    UpperLetters(c);
    LowerLetters(c);
    LettersInOrder(i);
  }

  lemma LettersInOrder(i: nat)
    requires i < 26
    ensures UPPER_LETTERS[i] as int == 'A' as int + i && LOWER_LETTERS[i] as int == 'a' as int + i
  {
  }

  predicate IsLower(s: string) {
    forall i :: 0 <= i < |s| ==> !('A' <= s[i] <= 'Z')
  }

  lemma LowerFixpoint(s: string)
    ensures Lower(s) == s <==> IsLower(s)
    ensures IsLower(Lower(s)) && Lower(Lower(s)) == Lower(s)
  {
  }

  /** Lower-cased and stripped text: what the loader keeps of an identity. */
  predicate Canonical(s: string) {
    IsLower(s) && Trimmed(s)
  }

  function Canon(s: string): string {
    Strip(Lower(s))
  }

  lemma StripKeepsLower(s: string)
    requires IsLower(s)
    ensures IsLower(Strip(s))
  {
    var l := StripLeft(s);
    var r := StripRight(l);
    forall i | 0 <= i < |r| ensures r[i] in s {
      assert r[i] == l[i] && l[i] in s;
    }
    forall i | 0 <= i < |r| ensures !('A' <= r[i] <= 'Z') {
      assert r[i] in s;
    }
  }

  lemma CanonFixpoint(s: string)
    ensures Canon(s) == s <==> Canonical(s)
    ensures Canonical(Canon(s)) && Canon(Canon(s)) == Canon(s)
  {
    hide Strip;
    LowerFixpoint(s);
    StripKeepsLower(Lower(s));
    StripFixpoint(Lower(s));
    LowerFixpoint(Canon(s));
    StripFixpoint(Canon(s));
  }

  lemma CanonEmpty(s: string)
    ensures Canon(s) == [] <==> forall i :: 0 <= i < |s| ==> IsSpace(s[i])
  {
    hide Strip;
    var l := Lower(s);
    forall i | 0 <= i < |s| ensures IsSpace(s[i]) <==> IsSpace(l[i]) {
      assert l[i] == LowerChar(s[i]);
    }
  }

  // ----------------------------------------------------------- code-point order

  predicate Less(a: string, b: string) {
    if b == [] then false
    else if a == [] then true
    else a[0] < b[0] || (a[0] == b[0] && Less(a[1..], b[1..]))
  }

  lemma {:induction false} LessAsymmetric(a: string, b: string)
    ensures !(Less(a, b) && Less(b, a))
    ensures a == b || Less(a, b) || Less(b, a)
  {
    if a != [] && b != [] {
      LessAsymmetric(a[1..], b[1..]);
      if a[0] == b[0] && a[1..] == b[1..] {
        assert a == [a[0]] + a[1..] && b == [b[0]] + b[1..];
      }
    }
  }

  lemma {:induction false} LessTransitive(a: string, b: string, c: string)
    requires Less(a, b) && Less(b, c)
    ensures Less(a, c)
  {
    if a != [] && a[0] == b[0] && b[0] == c[0] {
      LessTransitive(a[1..], b[1..], c[1..]);
    }
  }

  predicate IsLeast(x: string, s: set<string>) {
    x in s && forall y :: y in s ==> y == x || Less(x, y)
  }

  lemma {:induction false} LeastExists(s: set<string>)
    requires s != {}
    ensures exists x :: IsLeast(x, s)
    ensures forall x, y :: IsLeast(x, s) && IsLeast(y, s) ==> x == y
    decreases |s|
  {
    var x :| x in s;
    if s == {x} {
      assert IsLeast(x, s);
    } else {
      var rest := s - {x};
      assert rest != {};
      LeastExists(rest);
      var m :| IsLeast(m, rest);
      LessAsymmetric(x, m);
      var best := if Less(x, m) then x else m;
      forall y | y in s ensures y == best || Less(best, y) {
        if y != x && y != m && Less(x, m) {
          LessTransitive(x, m, y);
        }
      }
      assert IsLeast(best, s);
    }
    forall a, b | IsLeast(a, s) && IsLeast(b, s) ensures a == b {
      LessAsymmetric(a, b);
    }
  }

  /** Python's `sorted` of a set of strings. */
  function Sorted(s: set<string>): (r: seq<string>)
    ensures forall x :: x in r <==> x in s
    decreases |s|
  {
    if s == {} then []
    else
      LeastExists(s);
      var x :| IsLeast(x, s);
      [x] + Sorted(s - {x})
  }

  lemma {:induction false} SortedIsAscending(s: set<string>, i: nat, j: nat)
    requires i < j < |Sorted(s)|
    ensures Less(Sorted(s)[i], Sorted(s)[j])
    decreases |s|
  {
    LeastExists(s);
    var x :| IsLeast(x, s);
    var rest := Sorted(s - {x});
    assert Sorted(s) == [x] + rest;
    if i > 0 {
      SortedIsAscending(s - {x}, i - 1, j - 1);
    } else {
      assert rest[j - 1] in rest;
    }
  }

  // ------------------------------------------------------------ split and join

  function Join(parts: seq<string>, sep: char): string {
    if parts == [] then [] else if |parts| == 1 then parts[0] else parts[0] + [sep] + Join(parts[1..], sep)
  }

  /** Python's `str.split(sep)`: always at least one part. */
  function Split(s: string, sep: char): (parts: seq<string>)
    ensures |parts| >= 1
    ensures forall p :: p in parts ==> sep !in p
  {
    if s == [] then [[]]
    else
      var rest := Split(s[1..], sep);
      if s[0] == sep then [[]] + rest
      else [[s[0]] + rest[0]] + rest[1..]
  }

  lemma {:induction false} JoinSplit(s: string, sep: char)
    ensures Join(Split(s, sep), sep) == s
  {
    if s != [] {
      var rest := Split(s[1..], sep);
      JoinSplit(s[1..], sep);
      if s[0] == sep {
        assert ([[]] + rest)[1..] == rest;
      } else {
        assert ([[s[0]] + rest[0]] + rest[1..])[1..] == rest[1..];
      }
    }
  }

  lemma {:induction false} SplitSingle(s: string, sep: char)
    requires sep !in s
    ensures Split(s, sep) == [s]
  {
    if s != [] {
      SplitSingle(s[1..], sep);
      assert [s[0]] + s[1..] == s;
    }
  }

  lemma {:induction false} SplitAfterFirst(a: string, rest: string, sep: char)
    requires sep !in a
    ensures Split(a + [sep] + rest, sep) == [a] + Split(rest, sep)
  {
    var s := a + [sep] + rest;
    if a == [] {
      assert s[1..] == rest;
    } else {
      assert s[1..] == a[1..] + [sep] + rest;
      SplitAfterFirst(a[1..], rest, sep);
      assert [a[0]] + a[1..] == a;
    }
  }

  lemma {:induction false} SplitJoin(parts: seq<string>, sep: char)
    requires parts != [] && forall p :: p in parts ==> sep !in p
    ensures Split(Join(parts, sep), sep) == parts
  {
    assert parts[0] in parts;
    if |parts| == 1 {
      SplitSingle(parts[0], sep);
    } else {
      SplitJoin(parts[1..], sep);
      SplitAfterFirst(parts[0], Join(parts[1..], sep), sep);
    }
  }
}
