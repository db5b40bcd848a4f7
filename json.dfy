/** JSON values, the text they are written as, and the JavaScript view of
    them that the core relies on (truthiness, property reads and writes).
    `Parse` plays the part of `JSON.parse` (returning `None` where it would
    throw) and `Serialize` that of `JSON.stringify`; the lemma
    `ParseSerialize` proves that every well-formed value read back from its
    own text is the same value. */
module Json {
  import opened Wrappers
  import opened Strings

  /** A number is kept exactly, as `mantissa * 10^-scale`; JavaScript has one
      value for `8`, `8.0` and `80e-1`, so only the form without trailing
      fraction zeros (`Canonical`) is well formed. */
  datatype Json =
    | JNull
    | JBool(b: bool)
    | JNum(mantissa: int, scale: nat)
    | JStr(s: string)
    | JArr(items: seq<Json>)
    | JObj(fields: seq<Field>)

  /** One property of an object, in insertion order. */
  datatype Field = Field(key: string, value: Json)

  /** JavaScript truthiness: null, false, 0 and "" are falsy. */
  predicate Truthy(v: Json) {
    match v
    case JNull => false
    case JBool(b) => b
    case JNum(m, _) => m != 0
    case JStr(s) => s != ""
    case _ => true
  }

  /** Truthiness of a property read, where `None` is `undefined`. */
  predicate Present(o: Option<Json>) {
    o.Some? && Truthy(o.value)
  }

  function KeysOf(fields: seq<Field>): (ks: seq<string>)
    ensures |ks| == |fields|
    ensures forall i :: 0 <= i < |fields| ==> ks[i] == fields[i].key
  {
    seq(|fields|, i requires 0 <= i < |fields| => fields[i].key)
  }

  /** No string occurs twice in `ks`. */
  predicate Distinct(ks: seq<string>)
    decreases |ks|
  {
    ks == [] || (ks[0] !in ks[1..] && Distinct(ks[1..]))
  }

  predicate UniqueKeys(fields: seq<Field>) {
    Distinct(KeysOf(fields))
  }

  lemma {:induction false} DistinctAppend(ks: seq<string>, k: string)
    requires Distinct(ks) && k !in ks
    ensures Distinct(ks + [k])
    decreases |ks|
  {
    if ks != [] {
      assert (ks + [k])[1..] == ks[1..] + [k];
      DistinctAppend(ks[1..], k);
    }
  }

  /** A sequence whose elements differ pairwise has no repetitions. */
  lemma {:induction false} DistinctFromPairs(ks: seq<string>)
    requires forall i, j :: 0 <= i < j < |ks| ==> ks[i] != ks[j]
    ensures Distinct(ks)
    decreases |ks|
  {
    if ks != [] {
      assert forall j :: 0 <= j < |ks[1..]| ==> ks[1..][j] == ks[j + 1];
      DistinctFromPairs(ks[1..]);
    }
  }

  /** In a sequence without repetitions, what comes after `xs` is not in `xs`. */
  lemma {:induction false} DistinctSplit(xs: seq<string>, ys: seq<string>)
    requires Distinct(xs + ys) && ys != []
    ensures ys[0] !in xs
    decreases |xs|
  {
    if xs != [] {
      assert (xs + ys)[1..] == xs[1..] + ys;
      assert ys[0] in (xs + ys)[1..];
      DistinctSplit(xs[1..], ys);
    }
  }

  /** The value of property `key`, or `None` (undefined) when there is none. */
  function Get(fields: seq<Field>, key: string): (r: Option<Json>)
    ensures r.Some? <==> key in KeysOf(fields)
    ensures r.Some? ==> exists i :: 0 <= i < |fields| && fields[i] == Field(key, r.value)
  {
    if fields == [] then None
    else if fields[0].key == key then Some(fields[0].value)
    else
      var r := Get(fields[1..], key);
      assert KeysOf(fields) == [fields[0].key] + KeysOf(fields[1..]);
      assert r.Some? ==> exists i :: 0 <= i < |fields[1..]| && fields[1..][i] == Field(key, r.value);
      r
  }

  /** Property assignment `obj[key] = value`: an existing property keeps its
      position, a new one is appended. */
  function SetField(fields: seq<Field>, key: string, value: Json): (r: seq<Field>)
    ensures key in KeysOf(fields) ==> KeysOf(r) == KeysOf(fields)
    ensures key !in KeysOf(fields) ==> r == fields + [Field(key, value)]
  {
    if fields == [] then [Field(key, value)]
    else if fields[0].key == key then
      assert KeysOf([Field(key, value)] + fields[1..]) == KeysOf(fields);
      [Field(key, value)] + fields[1..]
    else
      var tail := SetField(fields[1..], key, value);
      KeysOfCons(fields[0], fields[1..]);
      KeysOfCons(fields[0], tail);
      assert [fields[0]] + fields[1..] == fields;
      [fields[0]] + tail
  }

  lemma KeysOfCons(f: Field, fields: seq<Field>)
    ensures KeysOf([f] + fields) == [f.key] + KeysOf(fields)
  {
  }

  /** After the assignment, `key` reads the new value and every other key
      reads what it read before. */
  lemma {:induction false} SetFieldGet(fields: seq<Field>, key: string, value: Json, k: string)
    ensures Get(SetField(fields, key, value), k) == if k == key then Some(value) else Get(fields, k)
    decreases |fields|
  {
    if fields != [] && fields[0].key != key {
      SetFieldGet(fields[1..], key, value, k);
      assert ([fields[0]] + SetField(fields[1..], key, value))[1..] == SetField(fields[1..], key, value);
    }
  }

  /** The assignment keeps the keys of an object distinct. */
  lemma SetFieldUnique(fields: seq<Field>, key: string, value: Json)
    requires UniqueKeys(fields)
    ensures UniqueKeys(SetField(fields, key, value))
  {
    if key !in KeysOf(fields) {
      KeysOfConcat(fields, [Field(key, value)]);
      assert KeysOf([Field(key, value)]) == [key];
      DistinctAppend(KeysOf(fields), key);
    }
  }

  /** Every property of the object holds a well-formed value. */
  predicate ValuesWellFormed(fields: seq<Field>) {
    forall i :: 0 <= i < |fields| ==> WellFormed(fields[i].value)
  }

  /** The assignment stores only well-formed values when it is given one. */
  lemma {:induction false} SetFieldValues(fields: seq<Field>, key: string, value: Json)
    requires ValuesWellFormed(fields) && WellFormed(value)
    ensures ValuesWellFormed(SetField(fields, key, value))
    decreases |fields|
  {
    var r := SetField(fields, key, value);
    if fields == [] {
      assert r == [Field(key, value)];
    } else if fields[0].key == key {
      assert r == [Field(key, value)] + fields[1..];
      forall i | 0 <= i < |r| ensures WellFormed(r[i].value) {
        if i > 0 {
          assert r[i] == fields[i];
        }
      }
    } else {
      var tail := SetField(fields[1..], key, value);
      SetFieldValues(fields[1..], key, value);
      assert r == [fields[0]] + tail;
      forall i | 0 <= i < |r| ensures WellFormed(r[i].value) {
        if i > 0 {
          assert r[i] == tail[i - 1];
        }
      }
    }
  }

  /** Assigning a well-formed value to a property of a well-formed object
      gives a well-formed object. */
  lemma SetFieldWellFormed(fields: seq<Field>, key: string, value: Json)
    requires WellFormed(JObj(fields)) && WellFormed(value)
    ensures WellFormed(JObj(SetField(fields, key, value)))
  {
    SetFieldUnique(fields, key, value);
    assert ValuesWellFormed(fields);
    SetFieldValues(fields, key, value);
  }

  /** The property `obj[key]` left out: what `JSON.stringify` does with a
      property that holds a function. The others keep their order. */
  function RemoveField(fields: seq<Field>, key: string): (r: seq<Field>)
    ensures forall f :: f in r ==> f in fields && f.key != key
  {
    if fields == [] then []
    else if fields[0].key == key then RemoveField(fields[1..], key)
    else [fields[0]] + RemoveField(fields[1..], key)
  }

  /** After the removal `key` reads undefined and every other key reads what
      it read before. */
  lemma {:induction false} RemoveFieldGet(fields: seq<Field>, key: string, k: string)
    ensures Get(RemoveField(fields, key), k) == if k == key then None else Get(fields, k)
    decreases |fields|
  {
    if fields != [] {
      RemoveFieldGet(fields[1..], key, k);
      if fields[0].key != key {
        assert ([fields[0]] + RemoveField(fields[1..], key))[1..] == RemoveField(fields[1..], key);
      }
    }
  }

  /** The removal keeps no key the object did not have. */
  lemma RemoveFieldKeys(fields: seq<Field>, key: string, k: string)
    requires k in KeysOf(RemoveField(fields, key))
    ensures k in KeysOf(fields)
  {
    var r := RemoveField(fields, key);
    var j :| 0 <= j < |r| && KeysOf(r)[j] == k;
    assert r[j] in fields;
    var i :| 0 <= i < |fields| && fields[i] == r[j];
    assert KeysOf(fields)[i] == k;
  }

  lemma {:induction false} RemoveFieldUnique(fields: seq<Field>, key: string)
    requires UniqueKeys(fields)
    ensures UniqueKeys(RemoveField(fields, key))
    decreases |fields|
  {
    if fields != [] {
      var tail := RemoveField(fields[1..], key);
      assert KeysOf(fields) == [fields[0].key] + KeysOf(fields[1..]);
      RemoveFieldUnique(fields[1..], key);
      if fields[0].key != key {
        KeysOfCons(fields[0], tail);
        if fields[0].key in KeysOf(tail) {
          RemoveFieldKeys(fields[1..], key, fields[0].key);
        }
      }
    }
  }

  /** The removal keeps an object well formed. */
  lemma RemoveFieldWellFormed(fields: seq<Field>, key: string)
    requires WellFormed(JObj(fields))
    ensures WellFormed(JObj(RemoveField(fields, key)))
  {
    RemoveFieldUnique(fields, key);
    var r := RemoveField(fields, key);
    forall i | 0 <= i < |r| ensures WellFormed(r[i].value) {
      assert r[i] in fields;
      var j :| 0 <= j < |fields| && fields[j] == r[i];
      assert WellFormed(fields[j].value);
    }
  }

  /** The names every object literal inherits from `Object.prototype`: a
      lookup `table[name]` with one of them reads a truthy value that is not
      an entry of the table. */
  const InheritedNames: set<string> := {
    "constructor", "__defineGetter__", "__defineSetter__", "hasOwnProperty",
    "__lookupGetter__", "__lookupSetter__", "isPrototypeOf", "propertyIsEnumerable",
    "toString", "valueOf", "__proto__", "toLocaleString"
  }

  /** `String(table[name])` for an inherited name: `Object.prototype` itself,
      or the source text of a built-in function (the constructor is `Object`). */
  function InheritedText(name: string): (r: string)
    requires name in InheritedNames
    ensures name != "__proto__" ==> EndsWith(r, "() { [native code] }")
  {
    if name == "__proto__" then "[object Object]"
    else if name == "constructor" then "function Object() { [native code] }"
    else "function " + name + "() { [native code] }"
  }

  /** The property key JavaScript makes of a value, `String(v)`: an array
      joins its elements with commas, null elements giving nothing. */
  function PropertyKey(v: Json): (r: string)
    ensures v.JStr? ==> r == v.s
    decreases v
  {
    match v
    case JNull => "null"
    case JBool(b) => if b then "true" else "false"
    case JNum(m, scale) => NumText(m, scale)
    case JStr(s) => s
    case JArr(items) =>
      Join(seq(|items|, i requires 0 <= i < |items| => if items[i] == JNull then "" else PropertyKey(items[i])), ",")
    case JObj(_) => "[object Object]"
  }

  /** Every object inside the value has distinct keys (as every object
      JavaScript can build has). */
  predicate WellFormed(v: Json)
    decreases v
  {
    match v
    case JNum(m, scale) => Canonical(m, scale)
    case JArr(items) => forall i :: 0 <= i < |items| ==> WellFormed(items[i])
    case JObj(fields) =>
      UniqueKeys(fields) && forall i :: 0 <= i < |fields| ==> WellFormed(fields[i].value)
    case _ => true
  }

  /** Reading property `key` of a value: on null it throws, and only objects
      have the properties the core asks for. */
  function Prop(v: Json, key: string): (r: Result<Option<Json>>)
    ensures r.Err? <==> v == JNull
    ensures v.JObj? ==> r == Ok(Get(v.fields, key))
  {
    match v
    case JNull => Err(TypeError)
    case JObj(fields) => Ok(Get(fields, key))
    case _ => Ok(None)
  }

  // ---------------------------------------------------------------- writing

  /** `m * 10^k`. */
  function ShiftLeft(m: int, k: nat): int {
    if k == 0 then m else 10 * ShiftLeft(m, k - 1)
  }

  predicate Canonical(m: int, scale: nat) {
    scale == 0 || m % 10 != 0
  }

  /** The number `m * 10^-scale` in canonical form. */
  function Num(m: int, scale: nat): (r: Json)
    ensures r.JNum? && Canonical(r.mantissa, r.scale) && r.scale <= scale
    ensures Canonical(m, scale) ==> r == JNum(m, scale)
    decreases scale
  {
    if scale > 0 && m % 10 == 0 then Num(m / 10, scale - 1) else JNum(m, scale)
  }

  /** `Num` keeps the value: only trailing zeros are dropped. */
  lemma {:induction false} NumValue(m: int, scale: nat)
    ensures var r := Num(m, scale); ShiftLeft(r.mantissa, scale - r.scale) == m
    decreases scale
  {
    if scale > 0 && m % 10 == 0 {
      NumValue(m / 10, scale - 1);
    }
  }

  function Zeros(n: nat): (r: string)
    ensures |r| == n && forall i :: 0 <= i < n ==> r[i] == '0'
  {
    seq(n, _ => '0')
  }

  function PadZeros(w: string, n: nat): (r: string)
    ensures |r| == if |w| >= n then |w| else n
  {
    if |w| >= n then w else Zeros(n - |w|) + w
  }

  function Abs(m: int): nat {
    if m < 0 then -m else m
  }

  function SignText(m: int): string {
    if m < 0 then "-" else ""
  }

  /** The digits of `|m|`, with at least `scale + 1` of them. */
  function NumDigits(m: int, scale: nat): (w: string)
    ensures |w| >= scale + 1
  {
    PadZeros(NatToString(Abs(m)), scale + 1)
  }

  /** The text of `mantissa * 10^-scale` in plain decimal notation, with
      exactly `scale` fraction digits. */
  function NumText(m: int, scale: nat): string {
    var w := NumDigits(m, scale);
    var k := |w| - scale;
    SignText(m) + w[..k] + (if scale == 0 then "" else "." + w[k..])
  }

  function HexChar(d: nat): char
    requires d < 16
  {
    if d < 10 then DigitChar(d) else ('a' as int + d - 10) as char
  }

  /** How `JSON.stringify` writes one character inside a string literal. */
  function EscapeChar(c: char): string {
    if c == '"' then "\\\""
    else if c == '\\' then "\\\\"
    else if c == '\n' then "\\n"
    else if c == '\r' then "\\r"
    else if c == '\t' then "\\t"
    else if c == '\U{0008}' then "\\b"
    else if c == '\U{000C}' then "\\f"
    else if c < ' ' then "\\u00" + [HexChar(c as int / 16), HexChar(c as int % 16)]
    else [c]
  }

  function Escape(s: string): string
    decreases |s|
  {
    if s == [] then "" else EscapeChar(s[0]) + Escape(s[1..])
  }

  function Serialize(v: Json): string
    decreases v, 1
  {
    match v
    case JNull => "null"
    case JBool(b) => if b then "true" else "false"
    case JNum(m, scale) => NumText(m, scale)
    case JStr(s) => "\"" + Escape(s) + "\""
    case JArr(items) => "[" + SerializeItems(items) + "]"
    case JObj(fields) => "{" + SerializeFields(fields) + "}"
  }

  function SerializeItems(items: seq<Json>): string
    decreases items, 0
  {
    if |items| == 0 then ""
    else if |items| == 1 then Serialize(items[0])
    else Serialize(items[0]) + "," + SerializeItems(items[1..])
  }

  function MemberText(f: Field): string
    decreases f, 0
  {
    "\"" + Escape(f.key) + "\"" + ":" + Serialize(f.value)
  }

  function SerializeFields(fields: seq<Field>): string
    decreases fields, 0
  {
    if |fields| == 0 then ""
    else if |fields| == 1 then MemberText(fields[0])
    else MemberText(fields[0]) + "," + SerializeFields(fields[1..])
  }

  // ---------------------------------------------------------------- reading

  /** The white space JSON allows between tokens. */
  predicate IsJsonSpace(c: char) {
    c == ' ' || c == '\t' || c == '\n' || c == '\r'
  }

  function SkipWs(s: string): (r: string)
    ensures |r| <= |s|
    ensures r == [] || !IsJsonSpace(r[0])
    ensures s == [] || !IsJsonSpace(s[0]) ==> r == s
    decreases |s|
  {
    if s != [] && IsJsonSpace(s[0]) then SkipWs(s[1..]) else s
  }

  function HexVal(c: char): (r: Option<nat>)
    ensures r.Some? ==> r.value < 16
  {
    if '0' <= c <= '9' then Some(c as int - '0' as int)
    else if 'a' <= c <= 'f' then Some(c as int - 'a' as int + 10)
    else if 'A' <= c <= 'F' then Some(c as int - 'A' as int + 10)
    else None
  }

  function HexQuad(q: string): (r: Option<nat>)
    requires |q| == 4
    ensures r.Some? ==> r.value < 0x1_0000
  {
    match (HexVal(q[0]), HexVal(q[1]), HexVal(q[2]), HexVal(q[3]))
    case (Some(a), Some(b), Some(c), Some(d)) => Some(((a * 16 + b) * 16 + c) * 16 + d)
    case _ => None
  }

  /** The character a one-letter escape such as `\n` stands for. */
  function SimpleEscape(c: char): Option<char> {
    if c == '"' then Some('"')
    else if c == '\\' then Some('\\')
    else if c == '/' then Some('/')
    else if c == 'b' then Some('\U{0008}')
    else if c == 'f' then Some('\U{000C}')
    else if c == 'n' then Some('\n')
    else if c == 'r' then Some('\r')
    else if c == 't' then Some('\t')
    else None
  }

  function Prepend(c: char, r: Option<(string, string)>): Option<(string, string)> {
    match r
    case None => None
    case Some((t, rest)) => Some(([c] + t, rest))
  }

  /** The escape `\uDC00`..`\uDFFF` that must follow a high surrogate
      escape, as its code unit. */
  function LowSurrogate(s: string): (r: Option<nat>)
    ensures r.Some? ==> |s| >= 6 && 0xDC00 <= r.value <= 0xDFFF
  {
    if |s| >= 6 && s[0] == '\\' && s[1] == 'u' then
      match HexQuad(s[2..6])
      case Some(low) => if 0xDC00 <= low <= 0xDFFF then Some(low) else None
      case None => None
    else None
  }

  /** The character a surrogate pair of code units stands for. */
  function Pair(high: nat, low: nat): (c: char)
    requires 0xD800 <= high <= 0xDBFF && 0xDC00 <= low <= 0xDFFF
    ensures 0x10000 <= c as int <= 0x10FFFF
  {
    (0x10000 + (high - 0xD800) * 0x400 + (low - 0xDC00)) as char
  }

  /** An escaped surrogate pair reads as the one character it encodes. */
  lemma SurrogatePairParses()
    ensures ParseString("\\ud83d\\ude00\"") == Some(("\U{1F600}", ""))
  {
    var s := "\\ud83d\\ude00\"";
    assert s[2..6] == "d83d" && HexQuad("d83d") == Some(0xD83D);
    assert s[6..] == "\\ude00\"";
    assert s[6..][2..6] == "de00" && HexQuad("de00") == Some(0xDE00);
    assert LowSurrogate(s[6..]) == Some(0xDE00);
    assert Pair(0xD83D, 0xDE00) == '\U{1F600}';
    assert s[12..] == "\"" && ParseString(s[12..]) == Some(("", ""));
    assert s[0] == '\\' && s[1] == 'u' && |s| == 13;
    assert ParseString(s) == Prepend(Pair(0xD83D, 0xDE00), ParseString(s[12..]));
    assert ['\U{1F600}'] + "" == "\U{1F600}";
  }

  /** The body of a string literal, after its opening quote: the characters
      it denotes and the text after its closing quote. */
  function ParseString(s: string): (r: Option<(string, string)>)
    ensures r.Some? ==> |r.value.1| < |s|
    decreases |s|
  {
    if s == [] then None
    else if s[0] == '"' then Some(("", s[1..]))
    else if s[0] == '\\' then
      if |s| < 2 then None
      else if s[1] == 'u' then
        if |s| < 6 then None
        else
          match HexQuad(s[2..6])
          case None => None
          case Some(code) =>
            if 0xD800 <= code <= 0xDBFF then
              match LowSurrogate(s[6..])
              case None => None
              case Some(low) => Prepend(Pair(code, low), ParseString(s[12..]))
            else if 0xDC00 <= code <= 0xDFFF then None
            else Prepend(code as char, ParseString(s[6..]))
      else
        match SimpleEscape(s[1])
        case None => None
        case Some(c) => Prepend(c, ParseString(s[2..]))
    else if s[0] < ' ' then None
    else Prepend(s[0], ParseString(s[1..]))
  }

  /** The length of the run of digits `s` starts with. */
  function DigitRun(s: string): (n: nat)
    ensures n <= |s|
    ensures forall i :: 0 <= i < n ==> IsDigit(s[i])
    ensures n == |s| || !IsDigit(s[n])
    decreases |s|
  {
    if s != [] && IsDigit(s[0]) then 1 + DigitRun(s[1..]) else 0
  }

  function DigitsValue(d: string): nat
    decreases |d|
  {
    if d == [] then 0
    else
      10 * DigitsValue(d[..|d| - 1]) + DigitVal(d[|d| - 1])
  }

  function DigitVal(c: char): nat {
    if IsDigit(c) then c as int - '0' as int else 0
  }

  /** An optional exponent part after the digits of a number. */
  function ParseExponent(neg: bool, mant: nat, scale: nat, w: string): (r: Option<(Json, string)>)
    ensures r.Some? ==> |r.value.1| <= |w|
    ensures r.Some? ==> r.value.0.JNum? && WellFormed(r.value.0)
  {
    var m: int := if neg then 0 - mant else mant;
    if w != [] && (w[0] == 'e' || w[0] == 'E') then
      var x := w[1..];
      var negExp := x != [] && x[0] == '-';
      var y := if x != [] && (x[0] == '-' || x[0] == '+') then x[1..] else x;
      var k := DigitRun(y);
      if k == 0 then None
      else
        var e := DigitsValue(y[..k]);
        var num :=
          if negExp then Num(m, scale + e)
          else if e >= scale then Num(ShiftLeft(m, e - scale), 0)
          else Num(m, scale - e);
        Some((num, y[k..]))
    else Some((Num(m, scale), w))
  }

  /** A number: optional minus, an integer part without leading zeros, an
      optional fraction and an optional exponent. */
  function ParseNumber(s: string): (r: Option<(Json, string)>)
    ensures r.Some? ==> |r.value.1| < |s|
    ensures r.Some? ==> r.value.0.JNum? && WellFormed(r.value.0)
  {
    var neg := s != [] && s[0] == '-';
    var t := if neg then s[1..] else s;
    var n := DigitRun(t);
    if n == 0 || (n > 1 && t[0] == '0') then None
    else ParseFraction(neg, t[..n], t[n..])
  }

  /** An optional fraction part after the integer digits `ip` of a number. */
  function ParseFraction(neg: bool, ip: string, u: string): (r: Option<(Json, string)>)
    ensures r.Some? ==> |r.value.1| <= |u|
    ensures r.Some? ==> r.value.0.JNum? && WellFormed(r.value.0)
  {
    if u != [] && u[0] == '.' then
      var f := DigitRun(u[1..]);
      if f == 0 then None
      else ParseExponent(neg, DigitsValue(ip + u[1..][..f]), f, u[1..][f..])
    else ParseExponent(neg, DigitsValue(ip), 0, u)
  }

  /** A value at the start of `s` (which starts with no white space), and the
      text after it. */
  function ParseValue(s: string): (r: Option<(Json, string)>)
    ensures r.Some? ==> |r.value.1| < |s|
    decreases |s|, 0
  {
    if s == [] then None
    else if s[0] == 'n' then ParseLiteral(s, "null", JNull)
    else if s[0] == 't' then ParseLiteral(s, "true", JBool(true))
    else if s[0] == 'f' then ParseLiteral(s, "false", JBool(false))
    else if s[0] == '"' then StringValue(ParseString(s[1..]))
    else if s[0] == '[' then ParseArray(SkipWs(s[1..]))
    else if s[0] == '{' then ParseObject(SkipWs(s[1..]))
    else if s[0] == '-' || IsDigit(s[0]) then ParseNumber(s)
    else None
  }

  /** One of the words `null`, `true` and `false`. */
  function ParseLiteral(s: string, word: string, v: Json): (r: Option<(Json, string)>)
    requires |word| > 0
    ensures r.Some? ==> |r.value.1| < |s|
  {
    if StartsWith(s, word) then Some((v, s[|word|..])) else None
  }

  function StringValue(r: Option<(string, string)>): (r': Option<(Json, string)>)
    ensures r'.Some? <==> r.Some?
    ensures r'.Some? ==> r'.value == (JStr(r.value.0), r.value.1)
  {
    match r
    case None => None
    case Some((str, rest)) => Some((JStr(str), rest))
  }

  /** The rest of an array, after `[` and white space. */
  function ParseArray(s: string): (r: Option<(Json, string)>)
    ensures r.Some? ==> |r.value.1| < |s|
    decreases |s|, 2
  {
    if s != [] && s[0] == ']' then Some((JArr([]), s[1..])) else ParseElements(s, [])
  }

  function ParseElements(s: string, acc: seq<Json>): (r: Option<(Json, string)>)
    ensures r.Some? ==> |r.value.1| < |s|
    decreases |s|, 1
  {
    match ParseValue(s)
    case None => None
    case Some((v, rest0)) =>
      var rest := SkipWs(rest0);
      if rest != [] && rest[0] == ']' then Some((JArr(acc + [v]), rest[1..]))
      else if rest != [] && rest[0] == ',' then ParseElements(SkipWs(rest[1..]), acc + [v])
      else None
  }

  /** The rest of an object, after `{` and white space. */
  function ParseObject(s: string): (r: Option<(Json, string)>)
    ensures r.Some? ==> |r.value.1| < |s|
    decreases |s|, 3
  {
    if s != [] && s[0] == '}' then Some((JObj([]), s[1..])) else ParseMembers(s, [])
  }

  /** Members of an object; a repeated key keeps its first position and takes
      its last value, as `JSON.parse` does. */
  function ParseMembers(s: string, acc: seq<Field>): (r: Option<(Json, string)>)
    ensures r.Some? ==> |r.value.1| < |s|
    decreases |s|, 2
  {
    match ParseMember(s)
    case None => None
    case Some((f, r3)) =>
      var r4 := SkipWs(r3);
      var acc' := SetField(acc, f.key, f.value);
      if r4 != [] && r4[0] == '}' then Some((JObj(acc'), r4[1..]))
      else if r4 != [] && r4[0] == ',' then ParseMembers(SkipWs(r4[1..]), acc')
      else None
  }

  /** One member `"key": value`. */
  function ParseMember(s: string): (r: Option<(Field, string)>)
    ensures r.Some? ==> |r.value.1| < |s|
    decreases |s|, 1
  {
    if s == [] || s[0] != '"' then None
    else
      match ParseString(s[1..])
      case None => None
      case Some((key, r0)) =>
        var r1 := SkipWs(r0);
        if r1 == [] || r1[0] != ':' then None
        else
          match ParseValue(SkipWs(r1[1..]))
          case None => None
          case Some((v, r3)) => Some((Field(key, v), r3))
  }

  /** `JSON.parse`: `None` where it throws. */
  function Parse(text: string): Option<Json> {
    match ParseValue(SkipWs(text))
    case None => None
    case Some((v, rest)) => if SkipWs(rest) == [] then Some(v) else None
  }

  /** What `JSON.parse` returns is well formed: its numbers are canonical
      and a repeated key is stored once. */
  lemma ParseWellFormed(text: string)
    ensures Parse(text).Some? ==> WellFormed(Parse(text).value)
  {
    ParseValueWellFormed(SkipWs(text));
  }

  lemma {:induction false} ParseValueWellFormed(s: string)
    ensures ParseValue(s).Some? ==> WellFormed(ParseValue(s).value.0)
    decreases |s|, 0
  {
    if s != [] && s[0] == '[' {
      ParseArrayWellFormed(SkipWs(s[1..]));
    } else if s != [] && s[0] == '{' {
      ParseObjectWellFormed(SkipWs(s[1..]));
    }
  }

  lemma {:induction false} ParseArrayWellFormed(s: string)
    ensures ParseArray(s).Some? ==> WellFormed(ParseArray(s).value.0)
    decreases |s|, 2
  {
    if !(s != [] && s[0] == ']') {
      ParseElementsWellFormed(s, []);
    }
  }

  lemma {:induction false} ParseElementsWellFormed(s: string, acc: seq<Json>)
    requires forall i :: 0 <= i < |acc| ==> WellFormed(acc[i])
    ensures ParseElements(s, acc).Some? ==> WellFormed(ParseElements(s, acc).value.0)
    decreases |s|, 1
  {
    match ParseValue(s)
    case None =>
    case Some((v, rest0)) =>
      ParseValueWellFormed(s);
      var acc' := acc + [v];
      assert forall i :: 0 <= i < |acc'| ==> WellFormed(acc'[i]) by {
        forall i | 0 <= i < |acc'| ensures WellFormed(acc'[i]) {
          if i < |acc| { assert acc'[i] == acc[i]; }
        }
      }
      var rest := SkipWs(rest0);
      if !(rest != [] && rest[0] == ']') && rest != [] && rest[0] == ',' {
        ParseElementsWellFormed(SkipWs(rest[1..]), acc');
      }
  }

  lemma {:induction false} ParseObjectWellFormed(s: string)
    ensures ParseObject(s).Some? ==> WellFormed(ParseObject(s).value.0)
    decreases |s|, 3
  {
    if !(s != [] && s[0] == '}') {
      ParseMembersWellFormed(s, []);
    }
  }

  lemma {:induction false} ParseMembersWellFormed(s: string, acc: seq<Field>)
    requires UniqueKeys(acc) && ValuesWellFormed(acc)
    ensures ParseMembers(s, acc).Some? ==> WellFormed(ParseMembers(s, acc).value.0)
    decreases |s|, 2
  {
    match ParseMember(s)
    case None =>
    case Some((f, r3)) =>
      ParseMemberWellFormed(s);
      SetFieldUnique(acc, f.key, f.value);
      SetFieldValues(acc, f.key, f.value);
      var acc' := SetField(acc, f.key, f.value);
      var r4 := SkipWs(r3);
      if !(r4 != [] && r4[0] == '}') && r4 != [] && r4[0] == ',' {
        ParseMembersWellFormed(SkipWs(r4[1..]), acc');
      }
  }

  lemma {:induction false} ParseMemberWellFormed(s: string)
    ensures ParseMember(s).Some? ==> WellFormed(ParseMember(s).value.0.value)
    decreases |s|, 1
  {
    if s != [] && s[0] == '"' {
      match ParseString(s[1..])
      case None =>
      case Some((key, r0)) =>
        var r1 := SkipWs(r0);
        if r1 != [] && r1[0] == ':' {
          ParseValueWellFormed(SkipWs(r1[1..]));
        }
    }
  }

  /** `isValidJSON`. */
  predicate IsValidJson(text: string) {
    Parse(text).Some?
  }

  // ------------------------------------------------------------ round trip

  /** What may follow a value inside the text of a larger value. */
  predicate Delimits(rest: string) {
    rest == [] || rest[0] == ',' || rest[0] == ']' || rest[0] == '}'
  }

  lemma {:induction false} DigitsValueOfNat(n: nat)
    ensures DigitsValue(NatToString(n)) == n
    decreases n
  {
    if n >= 10 {
      var d := NatToString(n / 10);
      DigitsValueOfNat(n / 10);
      assert (d + [DigitChar(n % 10)])[..|d|] == d;
    }
  }

  lemma {:induction false} LeadingZeroValue(d: string)
    ensures DigitsValue("0" + d) == DigitsValue(d)
    decreases |d|
  {
    if d != [] {
      var d' := d[..|d| - 1];
      assert ("0" + d)[..|d|] == "0" + d';
      LeadingZeroValue(d');
    }
  }

  lemma {:induction false} ZerosPrefixValue(n: nat, d: string)
    ensures DigitsValue(Zeros(n) + d) == DigitsValue(d)
    decreases n
  {
    if n == 0 {
      assert Zeros(n) + d == d;
    } else {
      assert Zeros(n) + d == "0" + (Zeros(n - 1) + d);
      LeadingZeroValue(Zeros(n - 1) + d);
      ZerosPrefixValue(n - 1, d);
    }
  }

  lemma {:induction false} DigitRunOf(d: string, u: string)
    requires forall i :: 0 <= i < |d| ==> IsDigit(d[i])
    requires u == [] || !IsDigit(u[0])
    ensures DigitRun(d + u) == |d|
    decreases |d|
  {
    if d == [] {
      assert d + u == u;
    } else {
      assert (d + u)[0] == d[0];
      assert (d + u)[1..] == d[1..] + u;
      DigitRunOf(d[1..], u);
    }
  }

  /** The digits of a number's text are digits, have no leading zero beyond
      the padding, and read back as `|m|`. */
  lemma NumDigitsFacts(m: int, scale: nat)
    ensures var w := NumDigits(m, scale);
      (forall i :: 0 <= i < |w| ==> IsDigit(w[i]))
      && DigitsValue(w) == Abs(m)
      && (|w| > scale + 1 ==> w[0] != '0')
  {
    var d := NatToString(Abs(m));
    DigitsValueOfNat(Abs(m));
    if |d| < scale + 1 {
      var z := Zeros(scale + 1 - |d|);
      var w := z + d;
      assert NumDigits(m, scale) == w;
      ZerosPrefixValue(|z|, d);
      forall i | 0 <= i < |w| ensures IsDigit(w[i]) {
        if i < |z| { assert w[i] == z[i]; } else { assert w[i] == d[i - |z|]; }
      }
    }
  }

  lemma NumTextStart(m: int, scale: nat)
    ensures var t := NumText(m, scale);
      |t| > 0 && (t[0] == '-' <==> m < 0) && (m >= 0 ==> IsDigit(t[0]))
  {
    NumDigitsFacts(m, scale);
  }

  /** The integer digits of a number's text, and what follows them. */
  function IntDigits(m: int, scale: nat): string {
    var w := NumDigits(m, scale);
    w[..|w| - scale]
  }

  function AfterDigits(m: int, scale: nat, rest: string): string {
    var w := NumDigits(m, scale);
    if scale == 0 then rest else "." + (w[|w| - scale..] + rest)
  }

  /** A number followed by a delimiter has no exponent part. */
  lemma ParseExponentNone(neg: bool, mant: nat, scale: nat, rest: string)
    requires Delimits(rest)
    ensures ParseExponent(neg, mant, scale, rest) == Some((Num(if neg then 0 - mant else mant, scale), rest))
  {
  }

  /** A number followed by a delimiter has no fraction part. */
  lemma ParseFractionNone(neg: bool, ip: string, rest: string)
    requires Delimits(rest)
    ensures ParseFraction(neg, ip, rest)
         == Some((Num(if neg then 0 - DigitsValue(ip) else DigitsValue(ip), 0), rest))
  {
    ParseExponentNone(neg, DigitsValue(ip), 0, rest);
  }

  /** How the fraction digits of a number are read. */
  lemma ParseFractionOf(neg: bool, ip: string, fp: string, rest: string, m: int)
    requires |fp| > 0 && forall i :: 0 <= i < |fp| ==> IsDigit(fp[i])
    requires Delimits(rest)
    requires (if neg then 0 - DigitsValue(ip + fp) else DigitsValue(ip + fp)) == m && Canonical(m, |fp|)
    ensures ParseFraction(neg, ip, "." + (fp + rest)) == Some((JNum(m, |fp|), rest))
  {
    var u := "." + (fp + rest);
    assert u[1..] == fp + rest;
    DigitRunOf(fp, rest);
    assert (fp + rest)[..|fp|] == fp && (fp + rest)[|fp|..] == rest;
    ParseExponentNone(neg, DigitsValue(ip + fp), |fp|, rest);
    CanonicalNum(if neg then 0 - DigitsValue(ip + fp) else DigitsValue(ip + fp), m, |fp|);
  }

  lemma CanonicalNum(x: int, m: int, scale: nat)
    requires x == m && Canonical(m, scale)
    ensures Num(x, scale) == JNum(m, scale)
  {
  }

  /** How the integer digits of a number are read. */
  lemma ParseNumberOf(neg: bool, ip: string, tail: string)
    requires |ip| > 0 && (forall i :: 0 <= i < |ip| ==> IsDigit(ip[i])) && (|ip| > 1 ==> ip[0] != '0')
    requires tail == [] || !IsDigit(tail[0])
    ensures ParseNumber((if neg then "-" else "") + (ip + tail)) == ParseFraction(neg, ip, tail)
  {
    var s := (if neg then "-" else "") + (ip + tail);
    assert (if s != [] && s[0] == '-' then s[1..] else s) == ip + tail;
    DigitRunOf(ip, tail);
    assert (ip + tail)[..|ip|] == ip && (ip + tail)[|ip|..] == tail;
  }

  lemma IntegerPartRoundTrip(m: int, scale: nat, rest: string)
    requires Delimits(rest)
    ensures ParseNumber(NumText(m, scale) + rest)
         == ParseFraction(m < 0, IntDigits(m, scale), AfterDigits(m, scale, rest))
  {
    var ip, tail := IntDigits(m, scale), AfterDigits(m, scale, rest);
    assert NumText(m, scale) + rest == (if m < 0 then "-" else "") + (ip + tail);
    NumDigitsFacts(m, scale);
    ParseNumberOf(m < 0, ip, tail);
  }

  lemma FractionPartRoundTrip(m: int, scale: nat, rest: string)
    requires Canonical(m, scale) && Delimits(rest)
    ensures ParseFraction(m < 0, IntDigits(m, scale), AfterDigits(m, scale, rest))
         == Some((JNum(m, scale), rest))
  {
    var w := NumDigits(m, scale);
    assert IntDigits(m, scale) == w[..|w| - scale];
    assert AfterDigits(m, scale, rest) == if scale == 0 then rest else "." + (w[|w| - scale..] + rest);
    NumDigitsFacts(m, scale);
    FractionOfDigits(m, scale, w, rest);
  }

  /** The fraction part read back from any digit string of the right value
      and length. */
  lemma FractionOfDigits(m: int, scale: nat, w: string, rest: string)
    requires Canonical(m, scale) && Delimits(rest)
    requires |w| >= scale + 1 && (forall i :: 0 <= i < |w| ==> IsDigit(w[i])) && DigitsValue(w) == Abs(m)
    ensures ParseFraction(m < 0, w[..|w| - scale], if scale == 0 then rest else "." + (w[|w| - scale..] + rest))
         == Some((JNum(m, scale), rest))
  {
    if scale > 0 {
      FractionDigitsPresent(m, scale, w, rest);
    } else {
      assert w[..|w|] == w;
      ParseFractionNone(m < 0, w, rest);
    }
  }

  lemma FractionDigitsPresent(m: int, scale: nat, w: string, rest: string)
    requires scale > 0 && Canonical(m, scale) && Delimits(rest)
    requires |w| >= scale + 1 && (forall i :: 0 <= i < |w| ==> IsDigit(w[i])) && DigitsValue(w) == Abs(m)
    ensures ParseFraction(m < 0, w[..|w| - scale], "." + (w[|w| - scale..] + rest))
         == Some((JNum(m, scale), rest))
  {
    var k := |w| - scale;
    var ip, fp := w[..k], w[k..];
    var v := if m < 0 then 0 - DigitsValue(ip + fp) else DigitsValue(ip + fp);
    assert v == m by {
      TakeDrop(w, k);
    }
    assert forall i :: 0 <= i < |fp| ==> IsDigit(fp[i]) by {
      assert forall i :: 0 <= i < |fp| ==> fp[i] == w[k + i];
    }
    assert |fp| == scale;
    ParseFractionOf(m < 0, ip, fp, rest, m);
  }

  /** A sequence is its prefix followed by the rest. */
  lemma TakeDrop<T>(w: seq<T>, k: nat)
    requires k <= |w|
    ensures w[..k] + w[k..] == w
  {
  }

  lemma NumberRoundTrip(m: int, scale: nat, rest: string)
    requires Canonical(m, scale) && Delimits(rest)
    ensures ParseNumber(NumText(m, scale) + rest) == Some((JNum(m, scale), rest))
  {
    IntegerPartRoundTrip(m, scale, rest);
    FractionPartRoundTrip(m, scale, rest);
  }

  lemma EscapeCharParses(c: char, tail: string)
    ensures ParseString(EscapeChar(c) + tail) == Prepend(c, ParseString(tail))
  {
    var s := EscapeChar(c) + tail;
    if c == '"' || c == '\\' || c == '\n' || c == '\r' || c == '\t' || c == '\U{0008}' || c == '\U{000C}' {
      assert s[2..] == tail;
    } else if c < ' ' {
      var hi, lo := c as int / 16, c as int % 16;
      assert s[2..6] == ['0', '0', HexChar(hi), HexChar(lo)];
      assert HexVal(HexChar(hi)) == Some(hi);
      assert HexVal(HexChar(lo)) == Some(lo);
      assert s[6..] == tail;
    } else {
      assert s[1..] == tail;
    }
  }

  lemma {:induction false} ParseEscaped(str: string, rest: string)
    ensures ParseString(Escape(str) + "\"" + rest) == Some((str, rest))
    decreases |str|
  {
    if str == [] {
      assert Escape(str) + "\"" + rest == "\"" + rest;
    } else {
      var tail := Escape(str[1..]) + "\"" + rest;
      assert Escape(str) + "\"" + rest == EscapeChar(str[0]) + tail;
      EscapeCharParses(str[0], tail);
      ParseEscaped(str[1..], rest);
      assert [str[0]] + str[1..] == str;
    }
  }

  lemma SerializeStart(v: Json)
    ensures |Serialize(v)| > 0
    ensures !IsJsonSpace(Serialize(v)[0])
    ensures Serialize(v)[0] != ']' && Serialize(v)[0] != '}'
  {
    match v
    case JNum(m, scale) => NumTextStart(m, scale);
    case _ =>
  }

  lemma SerializeItemsStart(items: seq<Json>)
    requires |items| > 0
    ensures |SerializeItems(items)| > 0 && SerializeItems(items)[0] == Serialize(items[0])[0]
  {
    SerializeStart(items[0]);
  }

  // How `ParseValue` dispatches on the first character.

  lemma ParseValueLiteral(lit: string, v: Json, rest: string)
    requires (lit == "null" && v == JNull) || (lit == "true" && v == JBool(true))
          || (lit == "false" && v == JBool(false))
    ensures ParseValue(lit + rest) == Some((v, rest))
  {
    var s := lit + rest;
    assert s[..|lit|] == lit && s[|lit|..] == rest;
    assert s[0] == lit[0];
  }

  lemma ParseValueString(str: string, rest: string)
    ensures ParseValue("\"" + Escape(str) + "\"" + rest) == Some((JStr(str), rest))
  {
    var s := "\"" + Escape(str) + "\"" + rest;
    assert s[0] == '"' && s[1..] == Escape(str) + "\"" + rest;
    ParseEscaped(str, rest);
  }

  lemma ParseValueNumber(s: string)
    requires s != [] && (s[0] == '-' || IsDigit(s[0]))
    ensures ParseValue(s) == ParseNumber(s)
  {
    var c := s[0];
    assert c != 'n' && c != 't' && c != 'f' && c != '"' && c != '[' && c != '{' by {
      assert c == '-' || ('0' <= c <= '9');
    }
  }

  lemma ParseValueArray(body: string)
    requires body != [] && !IsJsonSpace(body[0])
    ensures ParseValue("[" + body) == ParseArray(body)
  {
    assert ("[" + body)[1..] == body;
  }

  lemma ParseValueObject(body: string)
    requires body != [] && !IsJsonSpace(body[0])
    ensures ParseValue("{" + body) == ParseObject(body)
  {
    assert ("{" + body)[1..] == body;
  }

  // One step of reading the elements of an array or the members of an object.

  lemma ElementsNext(s: string, v: Json, more: string, acc: seq<Json>)
    requires ParseValue(s) == Some((v, "," + more))
    requires more != [] && !IsJsonSpace(more[0])
    ensures ParseElements(s, acc) == ParseElements(more, acc + [v])
  {
    assert ("," + more)[1..] == more;
  }

  lemma ElementsLast(s: string, v: Json, rest: string, acc: seq<Json>)
    requires ParseValue(s) == Some((v, "]" + rest))
    ensures ParseElements(s, acc) == Some((JArr(acc + [v]), rest))
  {
    assert ("]" + rest)[1..] == rest;
  }

  /** The text of one member, `"key":value`, split after its colon. */
  lemma MemberSplit(f: Field, after: string)
    ensures MemberText(f) + after == "\"" + (Escape(f.key) + "\"" + (":" + (Serialize(f.value) + after)))
  {
  }

  lemma MemberRoundTrip(f: Field, after: string)
    requires ParseValue(Serialize(f.value) + after) == Some((f.value, after))
    ensures ParseMember(MemberText(f) + after) == Some((f, after))
  {
    var colon := ":" + (Serialize(f.value) + after);
    var s := MemberText(f) + after;
    MemberSplit(f, after);
    assert s[0] == '"' && s[1..] == Escape(f.key) + "\"" + colon;
    ParseEscaped(f.key, colon);
    SerializeStart(f.value);
    assert colon[0] == ':' && colon[1..] == Serialize(f.value) + after;
  }

  lemma MembersNext(s: string, f: Field, more: string, acc: seq<Field>)
    requires ParseMember(s) == Some((f, "," + more))
    requires more != [] && !IsJsonSpace(more[0])
    ensures ParseMembers(s, acc) == ParseMembers(more, SetField(acc, f.key, f.value))
  {
    assert ("," + more)[1..] == more;
  }

  lemma MembersLast(s: string, f: Field, rest: string, acc: seq<Field>)
    requires ParseMember(s) == Some((f, "}" + rest))
    ensures ParseMembers(s, acc) == Some((JObj(SetField(acc, f.key, f.value)), rest))
  {
    assert ("}" + rest)[1..] == rest;
  }

  lemma SerializeFieldsStart(fields: seq<Field>)
    requires |fields| > 0
    ensures |SerializeFields(fields)| > 0 && SerializeFields(fields)[0] == '"'
  {
  }

  // The round trip, by induction on the value.

  lemma {:induction false} ParseSerializeValue(v: Json, rest: string)
    requires WellFormed(v) && Delimits(rest)
    ensures ParseValue(Serialize(v) + rest) == Some((v, rest))
    decreases v, 3
  {
    match v
    case JNull => ParseValueLiteral("null", v, rest);
    case JBool(b) => ParseValueLiteral(if b then "true" else "false", v, rest);
    case JNum(m, scale) =>
      NumTextStart(m, scale);
      ParseValueNumber(Serialize(v) + rest);
      NumberRoundTrip(m, scale, rest);
    case JStr(str) => ParseValueString(str, rest);
    case JArr(items) => ParseSerializeArray(items, rest);
    case JObj(fields) => ParseSerializeObject(fields, rest);
  }

  lemma {:induction false} ParseSerializeArray(items: seq<Json>, rest: string)
    requires forall i :: 0 <= i < |items| ==> WellFormed(items[i])
    requires Delimits(rest)
    ensures ParseValue(Serialize(JArr(items)) + rest) == Some((JArr(items), rest))
    decreases items, 2
  {
    var body := SerializeItems(items) + "]" + rest;
    assert Serialize(JArr(items)) + rest == "[" + body;
    if |items| == 0 {
      assert body == "]" + rest;
      ParseValueArray(body);
    } else {
      SerializeItemsStart(items);
      SerializeStart(items[0]);
      ParseValueArray(body);
      ParseSerializeItems(items, [], rest);
      assert [] + items == items;
    }
  }

  /** The text of a non-empty list of elements, split after its first element. */
  lemma {:induction false} ItemsText(items: seq<Json>, rest: string)
    requires |items| > 0
    ensures |items| == 1 ==> SerializeItems(items) + "]" + rest == Serialize(items[0]) + ("]" + rest)
    ensures |items| > 1 ==>
      SerializeItems(items) + "]" + rest == Serialize(items[0]) + ("," + (SerializeItems(items[1..]) + "]" + rest))
  {
    var first := Serialize(items[0]);
    if |items| > 1 {
      var tail := SerializeItems(items[1..]);
      assert SerializeItems(items) == first + "," + tail;
      assert first + "," + tail + "]" + rest == first + ("," + (tail + "]" + rest));
    }
  }

  lemma {:induction false} ParseSerializeItems(items: seq<Json>, acc: seq<Json>, rest: string)
    requires |items| > 0
    requires forall i :: 0 <= i < |items| ==> WellFormed(items[i])
    requires Delimits(rest)
    ensures ParseElements(SerializeItems(items) + "]" + rest, acc) == Some((JArr(acc + items), rest))
    decreases items, 1
  {
    ItemsText(items, rest);
    if |items| == 1 {
      ParseSerializeValue(items[0], "]" + rest);
      ElementsLast(SerializeItems(items) + "]" + rest, items[0], rest, acc);
      assert acc + [items[0]] == acc + items;
    } else {
      ParseSerializeMoreItems(items, acc, rest);
    }
  }

  lemma {:induction false} ParseSerializeMoreItems(items: seq<Json>, acc: seq<Json>, rest: string)
    requires |items| > 1
    requires forall i :: 0 <= i < |items| ==> WellFormed(items[i])
    requires Delimits(rest)
    ensures ParseElements(SerializeItems(items) + "]" + rest, acc) == Some((JArr(acc + items), rest))
    decreases items, 0
  {
    var more := SerializeItems(items[1..]) + "]" + rest;
    ItemsText(items, rest);
    ParseSerializeValue(items[0], "," + more);
    SerializeItemsStart(items[1..]);
    SerializeStart(items[1]);
    ElementsNext(SerializeItems(items) + "]" + rest, items[0], more, acc);
    ParseSerializeItems(items[1..], acc + [items[0]], rest);
    assert acc + [items[0]] + items[1..] == acc + items;
  }

  lemma {:induction false} ParseSerializeObject(fields: seq<Field>, rest: string)
    requires UniqueKeys(fields)
    requires forall i :: 0 <= i < |fields| ==> WellFormed(fields[i].value)
    requires Delimits(rest)
    ensures ParseValue(Serialize(JObj(fields)) + rest) == Some((JObj(fields), rest))
    decreases fields, 2
  {
    var body := SerializeFields(fields) + "}" + rest;
    assert Serialize(JObj(fields)) + rest == "{" + body;
    if |fields| == 0 {
      assert body == "}" + rest;
      ParseValueObject(body);
    } else {
      SerializeFieldsStart(fields);
      ParseValueObject(body);
      assert [] + fields == fields;
      ParseSerializeFields(fields, [], rest);
    }
  }

  /** The text of a non-empty list of members, split after its first member. */
  lemma {:induction false} FieldsText(fields: seq<Field>, rest: string)
    requires |fields| > 0
    ensures |fields| == 1 ==> SerializeFields(fields) + "}" + rest == MemberText(fields[0]) + ("}" + rest)
    ensures |fields| > 1 ==>
      SerializeFields(fields) + "}" + rest == MemberText(fields[0]) + ("," + (SerializeFields(fields[1..]) + "}" + rest))
  {
    var first := MemberText(fields[0]);
    if |fields| > 1 {
      var tail := SerializeFields(fields[1..]);
      assert SerializeFields(fields) == first + "," + tail;
      assert first + "," + tail + "}" + rest == first + ("," + (tail + "}" + rest));
    }
  }

  lemma {:induction false} ParseSerializeFields(fields: seq<Field>, acc: seq<Field>, rest: string)
    requires |fields| > 0
    requires forall i :: 0 <= i < |fields| ==> WellFormed(fields[i].value)
    requires UniqueKeys(acc + fields)
    requires Delimits(rest)
    ensures ParseMembers(SerializeFields(fields) + "}" + rest, acc) == Some((JObj(acc + fields), rest))
    decreases fields, 1
  {
    var f := fields[0];
    if |fields| == 1 {
      FieldsText(fields, rest);
      FreshKeys(fields, acc);
      ParseSerializeValue(f.value, "}" + rest);
      MemberRoundTrip(f, "}" + rest);
      MembersLast(SerializeFields(fields) + "}" + rest, f, rest, acc);
      assert acc + [f] == acc + fields;
    } else {
      ParseSerializeMoreFields(fields, acc, rest);
    }
  }

  lemma {:induction false} ParseSerializeMoreFields(fields: seq<Field>, acc: seq<Field>, rest: string)
    requires |fields| > 1
    requires forall i :: 0 <= i < |fields| ==> WellFormed(fields[i].value)
    requires UniqueKeys(acc + fields)
    requires Delimits(rest)
    ensures ParseMembers(SerializeFields(fields) + "}" + rest, acc) == Some((JObj(acc + fields), rest))
    decreases fields, 0
  {
    var f := fields[0];
    var more := SerializeFields(fields[1..]) + "}" + rest;
    FieldsText(fields, rest);
    FreshKeys(fields, acc);
    ParseSerializeMember(f, "," + more);
    SerializeFieldsStart(fields[1..]);
    ParseSerializeFields(fields[1..], acc + [f], rest);
    MembersChain(SerializeFields(fields) + "}" + rest, f, more, acc, fields[1..], rest);
  }

  lemma {:induction false} ParseSerializeMember(f: Field, after: string)
    requires WellFormed(f.value) && Delimits(after)
    ensures ParseMember(MemberText(f) + after) == Some((f, after))
    decreases f, 0
  {
    ParseSerializeValue(f.value, after);
    MemberRoundTrip(f, after);
  }

  lemma MembersChain(s: string, f: Field, more: string, acc: seq<Field>, others: seq<Field>, rest: string)
    requires ParseMember(s) == Some((f, "," + more))
    requires more != [] && !IsJsonSpace(more[0])
    requires SetField(acc, f.key, f.value) == acc + [f]
    requires ParseMembers(more, acc + [f]) == Some((JObj(acc + [f] + others), rest))
    ensures ParseMembers(s, acc) == Some((JObj(acc + [f] + others), rest))
  {
    MembersNext(s, f, more, acc);
  }

  /** Reading the first member appends it, and the rest is as before. */
  lemma FreshKeys(fields: seq<Field>, acc: seq<Field>)
    requires |fields| > 0 && UniqueKeys(acc + fields)
    requires forall i :: 0 <= i < |fields| ==> WellFormed(fields[i].value)
    ensures forall i :: 0 <= i < |fields[1..]| ==> WellFormed(fields[1..][i].value)
    ensures SetField(acc, fields[0].key, fields[0].value) == acc + [fields[0]]
    ensures acc + [fields[0]] + fields[1..] == acc + fields
  {
    KeysOfConcat(acc, fields);
    DistinctSplit(KeysOf(acc), KeysOf(fields));
    assert acc + [fields[0]] + fields[1..] == acc + fields;
  }

  lemma KeysOfConcat(a: seq<Field>, b: seq<Field>)
    ensures KeysOf(a + b) == KeysOf(a) + KeysOf(b)
  {
  }

  /** Reading back the text `Serialize` writes gives the same value. */
  lemma ParseSerialize(v: Json)
    requires WellFormed(v)
    ensures Parse(Serialize(v)) == Some(v)
  {
    SerializeStart(v);
    ParseSerializeValue(v, []);
    assert Serialize(v) + [] == Serialize(v);
  }
}
