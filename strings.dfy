/** The JavaScript string operations the core relies on, over `seq<char>`:
    the white-space set shared by the regular-expression class `\s` and by
    `String.prototype.trim`, case mapping of the Latin letters, `includes`, `split`, `join`,
    `trim`, `slice` and decimal rendering of integers. */
module Strings {
  import opened Wrappers

  /** A character that `\s` matches and that `trim` removes (ECMAScript
      WhiteSpace and LineTerminator). */
  predicate IsSpace(c: char) {
    c == '\t' || c == '\n' || c == '\U{000B}' || c == '\U{000C}' || c == '\r' || c == ' '
    || c == '\U{00A0}' || c == '\U{1680}' || ('\U{2000}' <= c <= '\U{200A}')
    || c == '\U{2028}' || c == '\U{2029}' || c == '\U{202F}' || c == '\U{205F}'
    || c == '\U{3000}' || c == '\U{FEFF}'
  }

  /** A character that the regular-expression class `\w` matches. */
  predicate IsWordChar(c: char) {
    ('a' <= c <= 'z') || ('A' <= c <= 'Z') || ('0' <= c <= '9') || c == '_'
  }

  predicate IsDigit(c: char) {
    '0' <= c <= '9'
  }

  predicate IsUpper(c: char) {
    'A' <= c <= 'Z'
  }

  predicate IsLetter(c: char) {
    ('a' <= c <= 'z') || ('A' <= c <= 'Z')
  }

  /** The lower-case letter `toLowerCase` gives for an upper-case letter of
      Basic Latin, Latin-1 and Latin Extended-A: Latin-1 pairs its letters 32
      apart, Extended-A pairs neighbours, and Y with diaeresis goes back to
      Latin-1. */
  function LowerChar(c: char): char {
    var n := c as int;
    if 'A' <= c <= 'Z' || (0xC0 <= n <= 0xDE && n != 0xD7) then (n + 32) as char
    else if (0x100 <= n <= 0x12F || 0x132 <= n <= 0x137 || 0x14A <= n <= 0x177) && n % 2 == 0 then (n + 1) as char
    else if (0x139 <= n <= 0x148 || 0x179 <= n <= 0x17E) && n % 2 == 1 then (n + 1) as char
    else if n == 0x178 then '\U{00FF}'
    else c
  }

  /** The one character `toUpperCase` gives for a lower-case letter of the
      same blocks; the micro sign, the dotless i and the long s leave them. */
  function UpperChar(c: char): char {
    var n := c as int;
    if 'a' <= c <= 'z' || (0xE0 <= n <= 0xFE && n != 0xF7) then (n - 32) as char
    else if (0x101 <= n <= 0x12F || 0x133 <= n <= 0x137 || 0x14B <= n <= 0x177) && n % 2 == 1 then (n - 1) as char
    else if (0x13A <= n <= 0x148 || 0x17A <= n <= 0x17E) && n % 2 == 0 then (n - 1) as char
    else if n == 0xFF then '\U{0178}'
    else if n == 0xB5 then '\U{039C}'
    else if n == 0x131 then 'I'
    else if n == 0x17F then 'S'
    else c
  }

  /** `c.toUpperCase()`: sharp s and n preceded by apostrophe become two
      characters. */
  function UpperText(c: char): (r: string)
    ensures |r| == 1 || r == "SS" || r == "\U{02BC}N"
  {
    if c == '\U{00DF}' then "SS"
    else if c == '\U{0149}' then "\U{02BC}N"
    else [UpperChar(c)]
  }

  /** A lower-case letter is its own lower case. */
  lemma LowerCharIdempotent(c: char)
    ensures LowerChar(LowerChar(c)) == LowerChar(c)
  {
  }

  /** `toLowerCase`, for the letters `LowerChar` maps. */
  function ToLower(s: string): string {
    seq(|s|, i requires 0 <= i < |s| => LowerChar(s[i]))
  }

  /** `s.charAt(0).toUpperCase() + s.slice(1)`, for the letters
      `UpperText` maps. */
  function Capitalize(s: string): (r: string)
    ensures |r| >= |s|
    ensures s != [] ==> r == UpperText(s[0]) + s[1..]
  {
    if s == [] then [] else UpperText(s[0]) + s[1..]
  }

  predicate StartsWith(s: string, prefix: string) {
    |prefix| <= |s| && s[..|prefix|] == prefix
  }

  predicate EndsWith(s: string, suffix: string) {
    |suffix| <= |s| && s[|s| - |suffix|..] == suffix
  }

  /** Whether `pat` occurs in `s` starting at index `j`. */
  predicate OccursAt(s: string, pat: string, j: nat) {
    j + |pat| <= |s| && s[j..j + |pat|] == pat
  }

  /** A text occurs right after what precedes it. */
  lemma OccursAfter(x: string, p: string, y: string)
    ensures OccursAt(x + p + y, p, |x|)
  {
    assert (x + p + y)[|x|..|x| + |p|] == p;
  }

  /** An occurrence stays where it is when more text follows. */
  lemma OccursExtend(s: string, p: string, i: nat, y: string)
    requires OccursAt(s, p, i)
    ensures OccursAt(s + y, p, i)
  {
    assert (s + y)[i..i + |p|] == s[i..i + |p|];
  }

  lemma OccursAtTail(s: string, pat: string, j: nat)
    requires |s| > 0
    ensures OccursAt(s, pat, j + 1) == OccursAt(s[1..], pat, j)
  {
    if j + 1 + |pat| <= |s| {
      assert s[j + 1..j + 1 + |pat|] == s[1..][j..j + |pat|];
    }
  }

  /** The index of the first occurrence of `pat` in `s` (`indexOf`). */
  function Find(s: string, pat: string): (r: Option<nat>)
    ensures r.Some? ==> OccursAt(s, pat, r.value)
    ensures r.Some? ==> forall j: nat :: j < r.value ==> !OccursAt(s, pat, j)
    ensures r.None? ==> forall j: nat :: !OccursAt(s, pat, j)
    decreases |s|
  {
    if |s| < |pat| then None
    else if s[..|pat|] == pat then Some(0)
    else
      match Find(s[1..], pat)
      case None =>
        forall j: nat | j > 0 ensures !OccursAt(s, pat, j) {
          OccursAtTail(s, pat, j - 1);
        }
        None
      case Some(i) =>
        OccursAtTail(s, pat, i);
        forall j: nat | 0 < j < i + 1 ensures !OccursAt(s, pat, j) {
          OccursAtTail(s, pat, j - 1);
        }
        Some(i + 1)
  }

  /** `s.includes(sub)`. */
  predicate Contains(s: string, sub: string) {
    exists j :: 0 <= j <= |s| && OccursAt(s, sub, j)
  }

  /** `includes` agrees with `indexOf`. */
  lemma ContainsFind(s: string, sub: string)
    ensures Contains(s, sub) <==> Find(s, sub).Some?
  {
  }

  lemma ContainsAt(s: string, sub: string, i: nat)
    requires OccursAt(s, sub, i)
    ensures Contains(s, sub)
  {
  }

  /** A concatenation starts with its first part and ends with its last. */
  lemma ConcatEnds(a: string, b: string, c: string)
    ensures StartsWith(a + b + c, a) && EndsWith(a + b + c, c)
  {
    assert (a + b + c)[..|a|] == a;
    assert (a + b + c)[|a + b|..] == c;
  }

  /** An `||` chain of `includes` tests: whether `s` contains one of the
      needles. */
  predicate ContainsAny(s: string, needles: seq<string>)
    decreases |needles|
  {
    needles != [] && (Contains(s, needles[0]) || ContainsAny(s, needles[1..]))
  }

  /** The chain holds exactly when some needle occurs. */
  lemma {:induction false} ContainsAnySpec(s: string, needles: seq<string>)
    ensures ContainsAny(s, needles) <==> exists i :: 0 <= i < |needles| && Contains(s, needles[i])
    decreases |needles|
  {
    if needles != [] {
      ContainsAnySpec(s, needles[1..]);
      if ContainsAny(s, needles[1..]) {
        var i :| 0 <= i < |needles[1..]| && Contains(s, needles[1..][i]);
        assert Contains(s, needles[i + 1]);
      }
      if exists i :: 0 <= i < |needles| && Contains(s, needles[i]) {
        var i :| 0 <= i < |needles| && Contains(s, needles[i]);
        if i > 0 {
          assert needles[1..][i - 1] == needles[i];
        }
      }
    }
  }

  /** Lower-casing twice is lower-casing once. */
  lemma ToLowerIdempotent(s: string)
    ensures ToLower(ToLower(s)) == ToLower(s)
  {
    forall i | 0 <= i < |s| ensures ToLower(ToLower(s))[i] == ToLower(s)[i] {
      LowerCharIdempotent(s[i]);
    }
  }

  /** `s.split(sep)` for a non-empty separator string. */
  function Split(s: string, sep: string): (parts: seq<string>)
    requires |sep| > 0
    ensures |parts| >= 1
    ensures forall i :: 0 <= i < |parts| ==> |parts[i]| <= |s|
    decreases |s|
  {
    match Find(s, sep)
    case None => [s]
    case Some(i) => [s[..i]] + Split(s[i + |sep|..], sep)
  }

  /** `parts.join(sep)`. */
  function Join(parts: seq<string>, sep: string): string
    decreases |parts|
  {
    if |parts| == 0 then ""
    else if |parts| == 1 then parts[0]
    else parts[0] + sep + Join(parts[1..], sep)
  }

  /** A join starts with its first part. */
  lemma {:induction false} JoinStart(parts: seq<string>, sep: string)
    requires parts != []
    ensures StartsWith(Join(parts, sep), parts[0])
  {
    if |parts| > 1 {
      assert Join(parts, sep) == parts[0] + (sep + Join(parts[1..], sep));
    }
  }

  /** Joining the pieces of a split with the same separator gives back the string. */
  lemma {:induction false} JoinSplit(s: string, sep: string)
    requires |sep| > 0
    ensures Join(Split(s, sep), sep) == s
    decreases |s|
  {
    var f := Find(s, sep);
    if f.Some? {
      var i := f.value;
      var tail := s[i + |sep|..];
      var rest := Split(tail, sep);
      JoinSplit(tail, sep);
      assert Split(s, sep) == [s[..i]] + rest;
      JoinCons(s[..i], rest, sep);
      CutAround(s, sep, i);
    }
  }

  /** Joining a first part before at least one more. */
  lemma JoinCons(p: string, rest: seq<string>, sep: string)
    requires rest != []
    ensures Join([p] + rest, sep) == p + sep + Join(rest, sep)
  {
    assert ([p] + rest)[1..] == rest;
  }

  /** A string is what comes before an occurrence, the occurrence, and what
      follows it. */
  lemma CutAround(s: string, pat: string, i: nat)
    requires OccursAt(s, pat, i)
    ensures s[..i] + pat + s[i + |pat|..] == s
  {
    assert s[i..i + |pat|] == pat;
  }

  /** The first occurrence of a separator in `p + sep + t`, when `p` does not
      contain the separator's first character, is right after `p`. */
  lemma FindAfter(p: string, sep: string, t: string)
    requires sep != [] && sep[0] !in p
    ensures Find(p + sep + t, sep) == Some(|p|)
  {
    var s := p + sep + t;
    assert OccursAt(s, sep, |p|) by { assert s[|p|..|p| + |sep|] == sep; }
    forall j: nat | j < |p| ensures !OccursAt(s, sep, j) {
      assert s[j] == p[j];
    }
  }

  /** A string without the separator's first character does not contain the
      separator. */
  lemma FindAbsent(s: string, sep: string)
    requires sep != [] && sep[0] !in s
    ensures Find(s, sep) == None
  {
    forall j: nat | j < |s| ensures !OccursAt(s, sep, j) {
    }
  }

  /** Splitting a join gives back the parts when no part contains the
      separator's first character. */
  lemma {:induction false} SplitJoin(parts: seq<string>, sep: string)
    requires |parts| >= 1 && sep != []
    requires forall i :: 0 <= i < |parts| ==> sep[0] !in parts[i]
    ensures Split(Join(parts, sep), sep) == parts
    decreases |parts|
  {
    if |parts| == 1 {
      FindAbsent(parts[0], sep);
    } else {
      var p, rest := parts[0], parts[1..];
      var t := Join(rest, sep);
      var s := p + sep + t;
      assert Join(parts, sep) == s;
      FindAfter(p, sep, t);
      assert s[..|p|] == p;
      assert s[|p| + |sep|..] == t;
      SplitJoin(rest, sep);
      assert Split(s, sep) == [p] + rest;
    }
  }

  /** `replace(/\s+/g, ' ')`: every maximal run of white space becomes one
      space. */
  function CollapseSpaces(s: string): (r: string)
    ensures s == [] <==> r == []
    ensures s != [] && IsSpace(s[0]) ==> r[0] == ' '
    ensures s != [] && !IsSpace(s[0]) ==> r[0] == s[0]
    decreases |s|
  {
    if s == [] then []
    else if IsSpace(s[0]) then
      var t := TrimStart(s);
      assert t == TrimStart(s[1..]);
      [' '] + CollapseSpaces(t)
    else
      [s[0]] + CollapseSpaces(s[1..])
  }

  /** No two white-space characters are adjacent. */
  ghost predicate NoSpaceRun(s: string) {
    forall i, j :: 0 <= i < j < |s| && j == i + 1 ==> !(IsSpace(s[i]) && IsSpace(s[j]))
  }

  /** The only white space is the plain space. */
  predicate PlainSpaces(s: string) {
    forall i :: 0 <= i < |s| && IsSpace(s[i]) ==> s[i] == ' '
  }

  /** The characters that are not white space, in order. */
  function NonSpaces(s: string): (r: string)
    ensures forall i :: 0 <= i < |r| ==> !IsSpace(r[i])
    decreases |s|
  {
    if s == [] then [] else (if IsSpace(s[0]) then [] else [s[0]]) + NonSpaces(s[1..])
  }

  lemma {:induction false} NonSpacesAppend(a: string, b: string)
    ensures NonSpaces(a + b) == NonSpaces(a) + NonSpaces(b)
    decreases |a|
  {
    if a == [] {
      assert a + b == b;
    } else {
      assert (a + b)[1..] == a[1..] + b;
      NonSpacesAppend(a[1..], b);
    }
  }

  /** A prefix made only of white space contributes nothing. */
  lemma {:induction false} NonSpacesOfSpaces(s: string, k: nat)
    requires k <= |s| && forall i :: 0 <= i < k ==> IsSpace(s[i])
    ensures NonSpaces(s) == NonSpaces(s[k..])
    decreases k
  {
    if k > 0 {
      NonSpacesOfSpaces(s[1..], k - 1);
      assert s[1..][k - 1..] == s[k..];
    }
  }

  /** A character put in front of text without runs of white space or
      other white space than the plain space keeps it so, when it is a
      plain space followed by something else, or is not white space. */
  lemma ConsSpaces(x: char, t: string)
    requires NoSpaceRun(t) && PlainSpaces(t)
    requires x == ' ' || !IsSpace(x)
    requires IsSpace(x) ==> t == [] || !IsSpace(t[0])
    ensures NoSpaceRun([x] + t) && PlainSpaces([x] + t)
  {
    var c := [x] + t;
    assert forall i :: 0 < i < |c| ==> c[i] == t[i - 1];
  }

  /** Collapsing leaves no run of white space and only plain spaces. */
  lemma {:induction false} CollapseSpacesShape(s: string)
    ensures NoSpaceRun(CollapseSpaces(s)) && PlainSpaces(CollapseSpaces(s))
    decreases |s|
  {
    if s != [] {
      if IsSpace(s[0]) {
        var t := TrimStart(s);
        assert t == TrimStart(s[1..]);
        CollapseSpacesShape(t);
        ConsSpaces(' ', CollapseSpaces(t));
      } else {
        CollapseSpacesShape(s[1..]);
        ConsSpaces(s[0], CollapseSpaces(s[1..]));
      }
    }
  }

  /** Collapsing keeps every other character, in order. */
  lemma {:induction false} CollapseSpacesKeeps(s: string)
    ensures NonSpaces(CollapseSpaces(s)) == NonSpaces(s)
    decreases |s|
  {
    if s != [] {
      if IsSpace(s[0]) {
        var t := TrimStart(s);
        assert t == TrimStart(s[1..]);
        CollapseSpacesKeeps(t);
        NonSpacesOfSpaces(s, |s| - |t|);
        NonSpacesAppend([' '], CollapseSpaces(t));
        assert NonSpaces([' ']) == [];
      } else {
        CollapseSpacesKeeps(s[1..]);
        NonSpacesAppend([s[0]], CollapseSpaces(s[1..]));
        assert NonSpaces([s[0]]) == [s[0]];
        assert NonSpaces(s) == [s[0]] + NonSpaces(s[1..]);
      }
    }
  }

  /** Joining with the empty separator puts the first part in front. */
  lemma JoinEmptyCons(a: string, rest: seq<string>)
    ensures Join([a] + rest, "") == a + Join(rest, "")
  {
    if rest != [] {
      assert ([a] + rest)[1..] == rest;
    }
  }

  /** Joining two non-empty lists is joining their joins. */
  lemma {:induction false} JoinAppend(xs: seq<string>, ys: seq<string>, sep: string)
    requires xs != [] && ys != []
    ensures Join(xs + ys, sep) == Join(xs, sep) + sep + Join(ys, sep)
    decreases |xs|
  {
    if |xs| == 1 {
      assert (xs + ys)[1..] == ys;
    } else {
      assert (xs + ys)[1..] == xs[1..] + ys;
      JoinAppend(xs[1..], ys, sep);
    }
  }

  /** Whether no element of `parts` is empty. */
  predicate NoEmpty(parts: seq<string>) {
    forall i :: 0 <= i < |parts| ==> parts[i] != ""
  }

  lemma JoinNonEmpty(parts: seq<string>, sep: string)
    requires |parts| > 0 && parts[0] != ""
    ensures Join(parts, sep) != "" && Join(parts, sep)[0] == parts[0][0]
  {
  }

  /** `trimStart`. */
  function TrimStart(s: string): (r: string)
    ensures |r| <= |s| && r == s[|s| - |r|..]
    ensures r == [] || !IsSpace(r[0])
    ensures forall i :: 0 <= i < |s| - |r| ==> IsSpace(s[i])
    decreases |s|
  {
    if s != [] && IsSpace(s[0]) then TrimStart(s[1..]) else s
  }

  /** `trimEnd`. */
  function TrimEnd(s: string): (r: string)
    ensures |r| <= |s| && r == s[..|r|]
    ensures r == [] || !IsSpace(r[|r| - 1])
    ensures forall i :: |r| <= i < |s| ==> IsSpace(s[i])
    decreases |s|
  {
    if s != [] && IsSpace(s[|s| - 1]) then TrimEnd(s[..|s| - 1]) else s
  }

  /** A string with no white space at either end. */
  predicate IsTrimmed(s: string) {
    s == [] || (!IsSpace(s[0]) && !IsSpace(s[|s| - 1]))
  }

  /** `trim`: the result is the input without its leading and trailing white
      space, and has none left at either end. */
  function Trim(s: string): (r: string)
    ensures IsTrimmed(r) && |r| <= |s|
  {
    var a := TrimStart(s);
    var r := TrimEnd(a);
    assert r == [] || r[0] == a[0];
    r
  }

  /** A prefix `m` of a suffix `a == c[lo..]` is the slice `c[lo..lo + |m|]`,
      and what `a` has after `m` is what `c` has after that slice. */
  lemma PrefixOfSuffix(c: string, a: string, m: string, lo: nat)
    requires lo <= |c| && a == c[lo..] && |m| <= |a| && m == a[..|m|]
    requires forall j :: |m| <= j < |a| ==> IsSpace(a[j])
    ensures lo + |m| <= |c| && m == c[lo..lo + |m|]
    ensures forall i :: lo + |m| <= i < |c| ==> IsSpace(c[i])
  {
    forall i | lo + |m| <= i < |c| ensures IsSpace(c[i]) {
      assert c[i] == a[i - lo];
    }
  }

  /** `trim` keeps a slice `c[lo..hi]` and cuts off white space only. */
  lemma TrimBounds(c: string) returns (lo: nat, hi: nat)
    ensures lo <= hi <= |c| && Trim(c) == c[lo..hi]
    ensures forall i :: 0 <= i < lo ==> IsSpace(c[i])
    ensures forall i :: hi <= i < |c| ==> IsSpace(c[i])
  {
    var a := TrimStart(c);
    var m := TrimEnd(a);
    lo := |c| - |a|;
    hi := lo + |m|;
    assert Trim(c) == m;
    assert hi <= |c| && m == c[lo..hi] && forall i :: hi <= i < |c| ==> IsSpace(c[i]) by {
      PrefixOfSuffix(c, a, m, lo);
    }
  }

  /** Only a string made of white space trims to nothing. */
  lemma TrimBlank(c: string)
    requires Trim(c) == []
    ensures forall i :: 0 <= i < |c| ==> IsSpace(c[i])
  {
    var lo, hi := TrimBounds(c);
  }

  /** `s.slice(0, n)`. */
  function Take(s: string, n: nat): (r: string)
    ensures |r| == if |s| <= n then |s| else n
    ensures r == s[..|r|]
  {
    if |s| <= n then s else s[..n]
  }

  /** `xs.slice(-n)`: the last `n` elements, or all of them. */
  function TakeLast<T>(xs: seq<T>, n: nat): (r: seq<T>)
    ensures |r| == if |xs| <= n then |xs| else n
    ensures r == xs[|xs| - |r|..]
  {
    if |xs| <= n then xs else xs[|xs| - n..]
  }

  /** `s.replace(pat, rep)` with a string pattern: only the first occurrence. */
  function ReplaceFirst(s: string, pat: string, rep: string): string {
    match Find(s, pat)
    case None => s
    case Some(i) => s[..i] + rep + s[i + |pat|..]
  }

  function DigitChar(d: nat): char
    requires d < 10
  {
    ('0' as int + d) as char
  }

  /** The decimal rendering of a natural number, as `String(n)` prints it. */
  function NatToString(n: nat): (r: string)
    ensures |r| >= 1
    ensures forall i :: 0 <= i < |r| ==> IsDigit(r[i])
    ensures |r| > 1 ==> r[0] != '0'
    decreases n
  {
    if n < 10 then [DigitChar(n)] else NatToString(n / 10) + [DigitChar(n % 10)]
  }

  /** The decimal rendering of an integer, as `String(i)` prints it. */
  function IntToString(i: int): (r: string)
    ensures |r| >= 1
  {
    if i < 0 then "-" + NatToString(-i) else NatToString(i)
  }
}
