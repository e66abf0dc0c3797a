/** Canonical JSON: the printer every key and digest rests on, and a parser that undoes it. Sections 3.2.2 and
    3.2.3 of RFC 8785, for every value without floats. */
module Canonical {
  import opened AgyTypes
  import Sorting

  /** An object keeps its insertion order; its keys are distinct (`WellKeyed`). Strings hold Unicode scalar
      values, which are the strings that can be encoded at all. */
  datatype Json =
    | Null
    | Bool(value: bool)
    | Int(number: int)
    | Str(text: string)
    | Arr(items: seq<Json>)
    | Obj(fields: seq<(string, Json)>)

  function KeysOf(fields: seq<(string, Json)>): (keys: seq<string>)
    ensures |keys| == |fields|
    ensures forall i :: 0 <= i < |fields| ==> keys[i] == fields[i].0
  {
    seq(|fields|, i requires 0 <= i < |fields| => fields[i].0)
  }

  /** No object binds a key twice. */
  ghost predicate WellKeyed(v: Json) {
    match v
    case Arr(items) => forall i :: 0 <= i < |items| ==> WellKeyed(items[i])
    case Obj(fields) => Sorting.Distinct(KeysOf(fields)) && forall i :: 0 <= i < |fields| ==> WellKeyed(fields[i].1)
    case _ => true
  }

  function Lookup(fields: seq<(string, Json)>, key: string): (v: Json)
    requires key in KeysOf(fields)
    ensures exists i :: 0 <= i < |fields| && fields[i] == (key, v)
  {
    if fields[0].0 == key then fields[0].1
    else
      assert KeysOf(fields) == [fields[0].0] + KeysOf(fields[1..]);
      Lookup(fields[1..], key)
  }

  // ---- the sort key of an object key ----

  /** The UTF-16 code units of one character. */
  function UnitsOf(c: char): seq<nat> {
    var cp := c as int;
    if cp < 0x1_0000 then [cp] else [0xD800 + (cp - 0x1_0000) / 0x400, 0xDC00 + (cp - 0x1_0000) % 0x400]
  }

  function Units(s: string): seq<nat> {
    if s == "" then [] else UnitsOf(s[0]) + Units(s[1..])
  }

  /** Each unit as two bytes, high byte first. */
  function BigEndian(units: seq<nat>): seq<nat> {
    if units == [] then [] else [units[0] / 256, units[0] % 256] + BigEndian(units[1..])
  }

  function SortKey(s: string): seq<nat> {
    BigEndian(Units(s))
  }

  function Below(): (nat, nat) -> bool {
    (x: nat, y: nat) => x < y
  }

  /** The order of object keys: byte strings compared lexicographically. */
  function KeyOrder(): (string, string) -> bool {
    (a: string, b: string) => Sorting.LexLeq(Below(), SortKey(a), SortKey(b))
  }

  /** Byte order is code unit order: section 3.2.3 of RFC 8785. */
  lemma {:induction false} ByteOrderIsUnitOrder(a: seq<nat>, b: seq<nat>)
    ensures Sorting.LexLeq(Below(), BigEndian(a), BigEndian(b)) <==> Sorting.LexLeq(Below(), a, b)
  {
    if a != [] && b != [] {
      ByteOrderIsUnitOrder(a[1..], b[1..]);
      var s, t := BigEndian(a), BigEndian(b);
      assert s[1..] == [a[0] % 256] + BigEndian(a[1..]) && t[1..] == [b[0] % 256] + BigEndian(b[1..]);
      assert s[1..][1..] == BigEndian(a[1..]) && t[1..][1..] == BigEndian(b[1..]);
      assert Sorting.LexLeq(Below(), s[1..], t[1..]) <==>
        a[0] % 256 < b[0] % 256 || (a[0] % 256 == b[0] % 256 && Sorting.LexLeq(Below(), a[1..], b[1..]));
    }
  }

  lemma {:induction false} UnitsInjective(a: string, b: string)
    requires Units(a) == Units(b)
    ensures a == b
  {
    if a != "" && b != "" {
      assert Units(a)[0] == UnitsOf(a[0])[0] && Units(b)[0] == UnitsOf(b[0])[0];
      assert (a[0] as int < 0x1_0000) == (b[0] as int < 0x1_0000);
      if a[0] as int >= 0x1_0000 {
        assert Units(a)[1] == UnitsOf(a[0])[1] && Units(b)[1] == UnitsOf(b[0])[1];
      }
      assert a[0] == b[0];
      var n := |UnitsOf(a[0])|;
      assert Units(a)[n..] == Units(a[1..]) && Units(b)[n..] == Units(b[1..]);
      UnitsInjective(a[1..], b[1..]);
      assert a == [a[0]] + a[1..] && b == [b[0]] + b[1..];
    }
  }

  lemma {:induction false} BigEndianInjective(a: seq<nat>, b: seq<nat>)
    requires BigEndian(a) == BigEndian(b)
    ensures a == b
  {
    if a != [] && b != [] {
      assert BigEndian(a)[0] == BigEndian(b)[0] && BigEndian(a)[1] == BigEndian(b)[1];
      assert BigEndian(a)[2..] == BigEndian(a[1..]) && BigEndian(b)[2..] == BigEndian(b[1..]);
      BigEndianInjective(a[1..], b[1..]);
      assert a == [a[0]] + a[1..] && b == [b[0]] + b[1..];
    }
  }

  /** Different keys have different sort keys, so sorting leaves no choice. */
  lemma SortKeyInjective(a: string, b: string)
    ensures SortKey(a) == SortKey(b) <==> a == b
  {
    if SortKey(a) == SortKey(b) {
      BigEndianInjective(Units(a), Units(b));
      UnitsInjective(a, b);
    }
  }

  lemma KeyOrderIsTotal()
    ensures Sorting.TotalOrder(KeyOrder())
  {
    var leq := KeyOrder();
    Sorting.LexTotalOrder(Below());
    var lex := (a: seq<nat>, b: seq<nat>) => Sorting.LexLeq(Below(), a, b);
    forall a: string, b: string ensures leq(a, b) || leq(b, a) {
      assert lex(SortKey(a), SortKey(b)) || lex(SortKey(b), SortKey(a));
    }
    forall a: string, b: string | leq(a, b) && leq(b, a) ensures a == b {
      assert lex(SortKey(a), SortKey(b)) && lex(SortKey(b), SortKey(a));
      SortKeyInjective(a, b);
    }
    forall a: string, b: string, c: string | leq(a, b) && leq(b, c) ensures leq(a, c) {
      assert lex(SortKey(a), SortKey(b)) && lex(SortKey(b), SortKey(c));
    }
  }

  function SortedKeys(fields: seq<(string, Json)>): (keys: seq<string>)
    ensures forall k :: k in keys <==> k in KeysOf(fields)
  {
    var keys := KeysOf(fields);
    KeyOrderIsTotal();
    Sorting.SortSorts(KeyOrder(), keys);
    assert forall k :: k in keys <==> k in multiset(keys);
    var sorted := Sorting.Sort(KeyOrder(), keys);
    assert forall k :: k in sorted <==> k in multiset(sorted);
    sorted
  }

  // ---- the printer ----

  function Hex(d: nat): char
    requires d < 16
  {
    "0123456789abcdef"[d]
  }

  function ShortEscape(c: char): string {
    match c as int
    case 0x08 => "\\b"
    case 0x09 => "\\t"
    case 0x0A => "\\n"
    case 0x0C => "\\f"
    case 0x0D => "\\r"
    case 0x22 => "\\\""
    case 0x5C => "\\\\"
    case _ => ""
  }

  function Escape(c: char): string {
    var short := ShortEscape(c);
    if short != "" then short
    else if c as int < 0x20 then "\\u00" + [Hex(c as int / 16), Hex(c as int % 16)]
    else [c]
  }

  function EscapeAll(s: string): string {
    if s == "" then "" else EscapeAll(s[..|s| - 1]) + Escape(s[|s| - 1])
  }

  function Quote(s: string): string {
    "\"" + EscapeAll(s) + "\""
  }

  method EscapeString(s: string) returns (out: string)
    ensures out == Quote(s)
    ensures ParseString(out) == Some((s, ""))
  {
    hide Escape, ParseString;
    out := "\"";
    for i := 0 to |s|
      invariant out == "\"" + EscapeAll(s[..i])
    {
      assert s[..i + 1][..i] == s[..i];
      out := out + Escape(s[i]);
    }
    assert s[..|s|] == s;
    out := out + "\"";
    assert out + "" == out;
    StringRoundTrip(s, "");
  }

  function Digits(n: nat): string {
    if n < 10 then [Hex(n)] else Digits(n / 10) + [Hex(n % 10)]
  }

  function Decimal(n: int): string {
    if n < 0 then "-" + Digits(-n) else Digits(n)
  }

  function Join(parts: seq<string>): string {
    if parts == [] then ""
    else if |parts| == 1 then parts[0]
    else parts[0] + "," + Join(parts[1..])
  }

  function Serialize(v: Json): string
    decreases v
  {
    match v
    case Null => "null"
    case Bool(b) => if b then "true" else "false"
    case Int(n) => Decimal(n)
    case Str(s) => Quote(s)
    case Arr(items) => "[" + Join(SerializeItems(items)) + "]"
    case Obj(fields) => "{" + Join(SerializeFields(fields, SortedKeys(fields))) + "}"
  }

  function SerializeItems(items: seq<Json>): (parts: seq<string>)
    ensures |parts| == |items|
    decreases Arr(items), |items|
  {
    seq(|items|, i requires 0 <= i < |items| => Serialize(items[i]))
  }

  function SerializeFields(fields: seq<(string, Json)>, keys: seq<string>): (parts: seq<string>)
    requires forall k :: k in keys ==> k in KeysOf(fields)
    ensures |parts| == |keys|
    decreases Obj(fields), |keys|
  {
    if keys == [] then []
    else [Quote(keys[0]) + ":" + Serialize(Lookup(fields, keys[0]))] + SerializeFields(fields, keys[1..])
  }

  /** The value with every object's keys put in order. */
  function Normalize(v: Json): Json
    decreases v
  {
    match v
    case Arr(items) => Arr(seq(|items|, i requires 0 <= i < |items| => Normalize(items[i])))
    case Obj(fields) => Obj(NormalizeFields(fields, SortedKeys(fields)))
    case _ => v
  }

  function NormalizeFields(fields: seq<(string, Json)>, keys: seq<string>): (r: seq<(string, Json)>)
    requires forall k :: k in keys ==> k in KeysOf(fields)
    ensures |r| == |keys|
    ensures forall i :: 0 <= i < |keys| ==> r[i] == (keys[i], Normalize(Lookup(fields, keys[i])))
    decreases Obj(fields), |keys|
  {
    if keys == [] then []
    else [(keys[0], Normalize(Lookup(fields, keys[0])))] + NormalizeFields(fields, keys[1..])
  }

  // ---- the parser ----

  function HexValue(c: char): Option<nat> {
    if '0' <= c <= '9' then Some(c as int - '0' as int)
    else if 'a' <= c <= 'f' then Some(c as int - 'a' as int + 10)
    else None
  }

  function Unescape(c: char): Option<char> {
    match c
    case 'b' => Some(0x08 as char)
    case 't' => Some(0x09 as char)
    case 'n' => Some(0x0A as char)
    case 'f' => Some(0x0C as char)
    case 'r' => Some(0x0D as char)
    case '\"' => Some('\"')
    case '\\' => Some('\\')
    case _ => None
  }

  /** The first character of a quoted text and what follows it. */
  function ParseChar(t: string): (r: Option<(char, string)>)
    requires t != ""
    ensures r.Some? ==> |r.value.1| < |t|
  {
    if t[0] != '\\' then Some((t[0], t[1..]))
    else if |t| < 2 then None
    else if t[1] != 'u' then
      var c := Unescape(t[1]);
      if c.None? then None else Some((c.value, t[2..]))
    else if |t| < 6 || t[2] != '0' || t[3] != '0' then None
    else
      var hi, lo := HexValue(t[4]), HexValue(t[5]);
      if hi.None? || lo.None? || hi.value >= 16 || lo.value >= 16 then None
      else Some(((hi.value * 16 + lo.value) as char, t[6..]))
  }

  /** The characters up to the closing quote. */
  function ParseChars(t: string): (r: Option<(string, string)>)
    ensures r.Some? ==> |r.value.1| < |t|
    decreases |t|
  {
    if t == "" then None
    else if t[0] == '\"' then Some(("", t[1..]))
    else
      var c := ParseChar(t);
      if c.None? then None
      else
        var more := ParseChars(c.value.1);
        if more.None? then None else Some(([c.value.0] + more.value.0, more.value.1))
  }

  function ParseString(t: string): (r: Option<(string, string)>)
    ensures r.Some? ==> |r.value.1| < |t|
  {
    if t == "" || t[0] != '\"' then None else ParseChars(t[1..])
  }

  predicate StartsWithDigit(t: string) {
    t != "" && '0' <= t[0] <= '9'
  }

  /** Reads as many digits as there are. */
  function ParseDigits(t: string, n: nat): (r: (nat, string))
    ensures |r.1| <= |t|
  {
    if StartsWithDigit(t) then ParseDigits(t[1..], 10 * n + (t[0] as int - '0' as int)) else (n, t)
  }

  function ParseNumber(t: string): (r: Option<(Json, string)>)
    ensures r.Some? ==> |r.value.1| < |t|
  {
    if StartsWithDigit(t) then
      var (n, rest) := ParseDigits(t[1..], t[0] as int - '0' as int);
      Some((Int(n), rest))
    else if t != "" && t[0] == '-' && StartsWithDigit(t[1..]) then
      var (n, rest) := ParseDigits(t[1..], 0);
      Some((Int(0 - (n as int)), rest))
    else None
  }

  function ParseValue(t: string): (r: Option<(Json, string)>)
    ensures r.Some? ==> |r.value.1| < |t|
    decreases |t|, 0
  {
    if "null" <= t then Some((Null, t[4..]))
    else if "true" <= t then Some((Bool(true), t[4..]))
    else if "false" <= t then Some((Bool(false), t[5..]))
    else if "\"" <= t then
      var s := ParseString(t);
      if s.None? then None else Some((Str(s.value.0), s.value.1))
    else if "[]" <= t then Some((Arr([]), t[2..]))
    else if "{}" <= t then Some((Obj([]), t[2..]))
    else if "[" <= t then
      var items := ParseItems(t[1..]);
      if items.None? then None else Some((Arr(items.value.0), items.value.1))
    else if "{" <= t then
      var fields := ParseFields(t[1..]);
      if fields.None? then None else Some((Obj(fields.value.0), fields.value.1))
    else ParseNumber(t)
  }

  function ParseItems(t: string): (r: Option<(seq<Json>, string)>)
    ensures r.Some? ==> |r.value.1| < |t|
    decreases |t|, 1
  {
    var first := ParseValue(t);
    if first.None? || first.value.1 == "" then None
    else
      var (v, rest) := first.value;
      if rest[0] == ']' then Some(([v], rest[1..]))
      else if rest[0] != ',' then None
      else
        var more := ParseItems(rest[1..]);
        if more.None? then None else Some(([v] + more.value.0, more.value.1))
  }

  function ParseField(t: string): (r: Option<((string, Json), string)>)
    ensures r.Some? ==> |r.value.1| < |t|
    decreases |t|, 1
  {
    var key := ParseString(t);
    if key.None? || key.value.1 == "" || key.value.1[0] != ':' then None
    else
      var v := ParseValue(key.value.1[1..]);
      if v.None? then None else Some(((key.value.0, v.value.0), v.value.1))
  }

  function ParseFields(t: string): (r: Option<(seq<(string, Json)>, string)>)
    ensures r.Some? ==> |r.value.1| < |t|
    decreases |t|, 2
  {
    var first := ParseField(t);
    if first.None? || first.value.1 == "" then None
    else
      var (field, rest) := first.value;
      if rest[0] == '}' then Some(([field], rest[1..]))
      else if rest[0] != ',' then None
      else
        var more := ParseFields(rest[1..]);
        if more.None? then None else Some(([field] + more.value.0, more.value.1))
  }

  // ---- the round trip ----

  lemma HexRoundTrip(d: nat)
    requires d < 16
    ensures HexValue(Hex(d)) == Some(d)
  {
  }

  lemma CharRoundTrip(c: char, rest: string)
    ensures Escape(c) != "" && (Escape(c) + rest)[0] != '\"'
    ensures ParseChar(Escape(c) + rest) == Some((c, rest))
  {
    var t := Escape(c) + rest;
    assert t[|Escape(c)|..] == rest;
    if ShortEscape(c) == "" && c as int < 0x20 {
      HexRoundTrip(c as int / 16);
      HexRoundTrip(c as int % 16);
      assert t[4] == Hex(c as int / 16) && t[5] == Hex(c as int % 16);
    }
  }

  lemma CharThenChars(c: char, rest: string)
    ensures ParseChars(Escape(c) + rest) ==
      var r := ParseChars(rest);
      if r.None? then None else Some(([c] + r.value.0, r.value.1))
  {
    hide Escape, ParseChar;
    CharRoundTrip(c, rest);
  }

  lemma {:induction false} CharsRoundTrip(s: string, rest: string)
    ensures ParseChars(EscapeAll(s) + rest) ==
      var r := ParseChars(rest);
      if r.None? then None else Some((s + r.value.0, r.value.1))
  {
    hide Escape, ParseChars;
    var r := ParseChars(rest);
    if s == "" {
      assert EscapeAll(s) + rest == rest;
      assert r.Some? ==> s + r.value.0 == r.value.0;
    } else {
      var init, last := s[..|s| - 1], s[|s| - 1];
      assert EscapeAll(s) + rest == EscapeAll(init) + (Escape(last) + rest);
      CharsRoundTrip(init, Escape(last) + rest);
      CharThenChars(last, rest);
      assert r.Some? ==> s + r.value.0 == init + ([last] + r.value.0);
    }
  }

  lemma StringRoundTrip(s: string, rest: string)
    ensures ParseString(Quote(s) + rest) == Some((s, rest))
  {
    var t := Quote(s) + rest;
    assert t[1..] == EscapeAll(s) + ("\"" + rest);
    CharsRoundTrip(s, "\"" + rest);
    assert ("\"" + rest)[1..] == rest;
    assert s + "" == s;
  }

  lemma DigitIsHex(d: nat)
    requires d < 10
    ensures '0' <= Hex(d) <= '9' && Hex(d) as int - '0' as int == d
  {
  }

  lemma {:induction false} DigitsRoundTrip(n: nat, rest: string)
    ensures Digits(n) != "" && StartsWithDigit(Digits(n) + rest)
    ensures ParseDigits(Digits(n) + rest, 0) == ParseDigits(rest, n)
  {
    hide Hex;
    if n < 10 {
      DigitIsHex(n);
      assert (Digits(n) + rest)[1..] == rest;
    } else {
      DigitIsHex(n % 10);
      var last := [Hex(n % 10)] + rest;
      assert Digits(n) + rest == Digits(n / 10) + last;
      DigitsRoundTrip(n / 10, last);
      assert last[1..] == rest;
      assert 10 * (n / 10) + n % 10 == n;
    }
  }

  lemma NumberRoundTrip(n: int, rest: string)
    requires !StartsWithDigit(rest)
    ensures ParseNumber(Decimal(n) + rest) == Some((Int(n), rest))
  {
    hide Digits;
    var t := Decimal(n) + rest;
    if n < 0 {
      DigitsRoundTrip(-n, rest);
      assert t[1..] == Digits(-n) + rest;
    } else {
      DigitsRoundTrip(n, rest);
      assert ParseDigits(t, 0) == ParseDigits(t[1..], t[0] as int - '0' as int);
    }
  }

  /** What the parser branches on. */
  lemma FirstChar(t: string)
    ensures "null" <= t ==> t[0] == 'n'
    ensures "true" <= t ==> t[0] == 't'
    ensures "false" <= t ==> t[0] == 'f'
    ensures "\"" <= t <==> t != "" && t[0] == '\"'
    ensures "[" <= t <==> t != "" && t[0] == '['
    ensures "{" <= t <==> t != "" && t[0] == '{'
    ensures "[]" <= t <==> |t| >= 2 && t[0] == '[' && t[1] == ']'
    ensures "{}" <= t <==> |t| >= 2 && t[0] == '{' && t[1] == '}'
  {
    assert "null"[0] == 'n' && "true"[0] == 't' && "false"[0] == 'f';
    assert "[]"[0] == '[' && "[]"[1] == ']' && "{}"[0] == '{' && "{}"[1] == '}';
  }

  lemma DecimalStarts(n: int)
    ensures Decimal(n) != "" && (Decimal(n)[0] == '-' || StartsWithDigit(Decimal(n)))
  {
    DigitsRoundTrip(if n < 0 then -n else n, "");
    assert Digits(if n < 0 then -n else n) + "" == Digits(if n < 0 then -n else n);
  }

  lemma SerializeStarts(v: Json)
    ensures Serialize(v) != "" && Serialize(v)[0] != ']'
  {
    if v.Int? {
      DecimalStarts(v.number);
    }
  }

  lemma JoinStarts(parts: seq<string>)
    requires parts != [] && parts[0] != ""
    ensures Join(parts) != "" && Join(parts)[0] == parts[0][0]
  {
  }

  lemma Regroup(a: string, b: string, c: string, d: string, e: string)
    ensures a + b + c + d + e == a + (b + (c + d + e))
  {
  }

  /** One printed element and what the list parser sees after it. */
  lemma JoinSplits(parts: seq<string>, close: string, rest: string)
    requires parts != []
    ensures Join(parts) + close + rest ==
      parts[0] + if |parts| == 1 then close + rest else "," + (Join(parts[1..]) + close + rest)
  {
    if |parts| == 1 {
      assert parts[0] + close + rest == parts[0] + (close + rest);
    } else {
      Regroup(parts[0], ",", Join(parts[1..]), close, rest);
    }
  }

  /** What the parser sees of a bracketed text. */
  lemma Bracketed(open: string, inner: string, close: string, rest: string)
    requires |open| == 1 && inner != ""
    ensures var t := open + inner + close + rest; |t| >= 2 && t[0] == open[0] && t[1] == inner[0] && t[1..] == inner + close + rest
  {
  }

  /** The parser recovers a value, with its keys in order, and leaves what follows untouched. */
  lemma {:induction false} RoundTrip(v: Json, rest: string)
    requires !StartsWithDigit(rest)
    ensures ParseValue(Serialize(v) + rest) == Some((Normalize(v), rest))
    decreases v
  {
    var t := Serialize(v) + rest;
    FirstChar(t);
    match v
    case Null => assert t[4..] == rest; assert "null" <= t;
    case Bool(b) =>
      assert t[if b then 4 else 5..] == rest;
      assert (if b then "true" else "false") <= t;
    case Int(n) => DecimalStarts(n); NumberRoundTrip(n, rest);
    case Str(s) => StringRoundTrip(s, rest);
    case Arr(items) => ArrayRoundTrip(items, rest);
    case Obj(fields) => ObjectRoundTrip(fields, rest);
  }

  lemma {:induction false} ArrayRoundTrip(items: seq<Json>, rest: string)
    ensures ParseValue(Serialize(Arr(items)) + rest) == Some((Normalize(Arr(items)), rest))
    decreases Arr(items), |items| + 1
  {
    hide Join, SerializeItems, ParseItems, ParseFields, ParseNumber, ParseString, Normalize;
    var t := Serialize(Arr(items)) + rest;
    FirstChar(t);
    NormalizeItems(items);
    if items == [] {
      assert t == "[]" + rest by {
        NothingToJoin();
      }
      assert t[2..] == rest;
    } else {
      var inner := Join(SerializeItems(items));
      ItemsStart(items);
      Bracketed("[", inner, "]", rest);
      ItemsRoundTrip(items, 0, rest);
      assert SerializeItems(items)[0..] == SerializeItems(items);
      assert Normalize(Arr(items)).items[0..] == Normalize(Arr(items)).items;
    }
  }

  lemma NothingToJoin()
    ensures Join(SerializeItems([])) == ""
  {
  }

  lemma NormalizeItems(items: seq<Json>)
    ensures Normalize(Arr(items)).Arr? && |Normalize(Arr(items)).items| == |items|
    ensures forall i :: 0 <= i < |items| ==> Normalize(Arr(items)).items[i] == Normalize(items[i])
  {
  }

  lemma ItemsStart(items: seq<Json>)
    requires items != []
    ensures Join(SerializeItems(items)) != "" && Join(SerializeItems(items))[0] != ']'
  {
    SerializeStarts(items[0]);
    JoinStarts(SerializeItems(items));
  }

  lemma {:induction false} ItemsRoundTrip(items: seq<Json>, k: nat, rest: string)
    requires k < |items|
    ensures Normalize(Arr(items)).Arr?
    ensures ParseItems(Join(SerializeItems(items)[k..]) + "]" + rest) == Some((Normalize(Arr(items)).items[k..], rest))
    decreases Arr(items), |items| - k
  {
    hide Join, Serialize, ParseValue, Normalize;
    NormalizeItems(items);
    var parts, normal := SerializeItems(items)[k..], Normalize(Arr(items)).items;
    var after := if |parts| == 1 then "]" + rest else "," + (Join(parts[1..]) + "]" + rest);
    JoinSplits(parts, "]", rest);
    RoundTrip(items[k], after);
    if |parts| == 1 {
      assert after[1..] == rest;
      assert normal[k..] == [normal[k]];
    } else {
      assert after[1..] == Join(parts[1..]) + "]" + rest;
      assert parts[1..] == SerializeItems(items)[k + 1..];
      ItemsRoundTrip(items, k + 1, rest);
      assert normal[k..] == [normal[k]] + normal[k + 1..];
    }
  }

  lemma {:induction false} ObjectRoundTrip(fields: seq<(string, Json)>, rest: string)
    ensures ParseValue(Serialize(Obj(fields)) + rest) == Some((Normalize(Obj(fields)), rest))
    decreases Obj(fields), |SortedKeys(fields)| + 1
  {
    hide Join, ParseItems, ParseFields, ParseNumber, ParseString, SortedKeys, KeysOf;
    var t := Serialize(Obj(fields)) + rest;
    FirstChar(t);
    var keys := SortedKeys(fields);
    if keys == [] {
      assert t == "{}" + rest by {
        NothingToJoin();
      }
      assert t[2..] == rest;
    } else {
      var inner := Join(SerializeFields(fields, keys));
      FieldsStart(fields, keys);
      Bracketed("{", inner, "}", rest);
      FieldsRoundTrip(fields, keys, rest);
    }
  }

  lemma FieldsStart(fields: seq<(string, Json)>, keys: seq<string>)
    requires keys != [] && forall k :: k in keys ==> k in KeysOf(fields)
    ensures Join(SerializeFields(fields, keys)) != "" && Join(SerializeFields(fields, keys))[0] == '\"'
  {
    hide Serialize, EscapeAll;
    JoinStarts(SerializeFields(fields, keys));
  }

  lemma {:induction false} FieldRoundTrip(fields: seq<(string, Json)>, key: string, after: string)
    requires key in KeysOf(fields) && !StartsWithDigit(after)
    ensures ParseField(Quote(key) + ":" + Serialize(Lookup(fields, key)) + after) == Some(((key, Normalize(Lookup(fields, key))), after))
    decreases Obj(fields), 0
  {
    hide Quote, Serialize, ParseString, ParseValue, Normalize, KeysOf;
    var v := Lookup(fields, key);
    var text := Quote(key) + ":" + Serialize(v) + after;
    StringRoundTrip(key, ":" + Serialize(v) + after);
    assert text == Quote(key) + (":" + Serialize(v) + after);
    assert (":" + Serialize(v) + after)[1..] == Serialize(v) + after;
    RoundTrip(v, after);
  }

  lemma {:induction false} FieldsRoundTrip(fields: seq<(string, Json)>, keys: seq<string>, rest: string)
    requires keys != [] && forall k :: k in keys ==> k in KeysOf(fields)
    ensures ParseFields(Join(SerializeFields(fields, keys)) + "}" + rest) == Some((NormalizeFields(fields, keys), rest))
    decreases Obj(fields), |keys|
  {
    hide Quote, Serialize, ParseField, Normalize, Join, KeysOf, Lookup;
    var parts := SerializeFields(fields, keys);
    var after := if |parts| == 1 then "}" + rest else "," + (Join(parts[1..]) + "}" + rest);
    JoinSplits(parts, "}", rest);
    FieldRoundTrip(fields, keys[0], after);
    if |parts| == 1 {
      assert after[1..] == rest;
      assert NormalizeFields(fields, keys) == [(keys[0], Normalize(Lookup(fields, keys[0])))];
    } else {
      assert after[1..] == Join(parts[1..]) + "}" + rest;
      assert parts[1..] == SerializeFields(fields, keys[1..]);
      FieldsRoundTrip(fields, keys[1..], rest);
    }
  }

  // ---- injectivity ----

  /** The same value: equal up to the insertion order of object keys. */
  ghost predicate SameValue(v: Json, w: Json)
    decreases v
  {
    match v
    case Arr(a) => w.Arr? && |a| == |w.items| && forall i :: 0 <= i < |a| ==> SameValue(a[i], w.items[i])
    case Obj(a) =>
      w.Obj? && |a| == |w.fields| && forall i :: 0 <= i < |a| ==>
        a[i].0 in KeysOf(w.fields) && SameValue(a[i].1, Lookup(w.fields, a[i].0))
    case _ => v == w
  }

  lemma {:induction false} LookupAt(fields: seq<(string, Json)>, i: nat)
    requires i < |fields| && Sorting.Distinct(KeysOf(fields))
    ensures fields[i].0 in KeysOf(fields) && Lookup(fields, fields[i].0) == fields[i].1
  {
    var keys := KeysOf(fields);
    assert keys[i] == fields[i].0;
    var v := Lookup(fields, fields[i].0);
    var k :| 0 <= k < |fields| && fields[k] == (fields[i].0, v);
    assert keys[k] == keys[i];
  }

  lemma LookupKeyed(fields: seq<(string, Json)>, key: string)
    requires WellKeyed(Obj(fields)) && key in KeysOf(fields)
    ensures WellKeyed(Lookup(fields, key))
  {
    var i :| 0 <= i < |fields| && fields[i] == (key, Lookup(fields, key));
  }

  /** The order the keys come out in depends only on which keys there are. */
  lemma SortedKeysCanonical(a: seq<(string, Json)>, b: seq<(string, Json)>)
    requires Sorting.Distinct(KeysOf(a)) && Sorting.Distinct(KeysOf(b))
    ensures |SortedKeys(a)| == |a|
    ensures SortedKeys(a) == SortedKeys(b) <==> (forall k :: k in KeysOf(a) <==> k in KeysOf(b))
  {
    KeyOrderIsTotal();
    Sorting.SortSorts(KeyOrder(), KeysOf(a));
    Sorting.SortCanonical(KeyOrder(), KeysOf(a), KeysOf(b));
    if forall k :: k in KeysOf(a) <==> k in KeysOf(b) {
      Sorting.SameElements(KeysOf(a), KeysOf(b));
    }
  }

  lemma SameSizeSameKeys(a: seq<(string, Json)>, b: seq<(string, Json)>)
    requires Sorting.Distinct(KeysOf(a)) && Sorting.Distinct(KeysOf(b)) && |a| == |b|
    requires forall k :: k in KeysOf(a) ==> k in KeysOf(b)
    ensures forall k :: k in KeysOf(a) <==> k in KeysOf(b)
  {
    Sorting.DistinctMultiset(KeysOf(a));
    Sorting.DistinctMultiset(KeysOf(b));
    var s, t := set k | k in KeysOf(a), set k | k in KeysOf(b);
    assert t == s + (t - s);
    forall k | k in KeysOf(b) ensures k in KeysOf(a) {
      assert k in t && t - s == {};
    }
  }

  /** Values with one normal form print the same, and conversely. */
  lemma {:induction false} PrintsItsNormalForm(v: Json, w: Json)
    requires Normalize(v) == Normalize(w)
    ensures Serialize(v) == Serialize(w)
    decreases v
  {
    match v
    case Arr(a) =>
      var b := w.items;
      forall i | 0 <= i < |a| ensures Serialize(a[i]) == Serialize(b[i]) {
        assert Normalize(a[i]) == Normalize(v).items[i] && Normalize(b[i]) == Normalize(w).items[i];
        PrintsItsNormalForm(a[i], b[i]);
      }
      assert SerializeItems(a) == SerializeItems(b);
      assert w == Arr(b);
    case Obj(a) =>
      assert w == Obj(w.fields);
      SameSortedKeys(a, w.fields);
      FieldsPrintTheirNormalForm(a, w.fields, SortedKeys(a));
    case Null => assert w == v;
    case Bool(_) => assert w == v;
    case Int(_) => assert w == v;
    case Str(_) => assert w == v;
  }

  lemma SameSortedKeys(a: seq<(string, Json)>, b: seq<(string, Json)>)
    requires Normalize(Obj(a)) == Normalize(Obj(b))
    ensures SortedKeys(a) == SortedKeys(b)
  {
    var ka, kb := SortedKeys(a), SortedKeys(b);
    var na, nb := NormalizeFields(a, ka), NormalizeFields(b, kb);
    assert na == nb;
    forall i | 0 <= i < |ka| ensures ka[i] == kb[i] {
      assert na[i] == (ka[i], Normalize(Lookup(a, ka[i])));
      assert nb[i] == (kb[i], Normalize(Lookup(b, kb[i])));
    }
  }

  lemma {:induction false} FieldsPrintTheirNormalForm(a: seq<(string, Json)>, b: seq<(string, Json)>, keys: seq<string>)
    requires forall k :: k in keys ==> k in KeysOf(a) && k in KeysOf(b)
    requires NormalizeFields(a, keys) == NormalizeFields(b, keys)
    ensures SerializeFields(a, keys) == SerializeFields(b, keys)
    decreases Obj(a), |keys|
  {
    if keys != [] {
      var na, nb := NormalizeFields(a, keys), NormalizeFields(b, keys);
      assert na[0] == nb[0] && na[1..] == NormalizeFields(a, keys[1..]) && nb[1..] == NormalizeFields(b, keys[1..]);
      PrintsItsNormalForm(Lookup(a, keys[0]), Lookup(b, keys[0]));
      FieldsPrintTheirNormalForm(a, b, keys[1..]);
    }
  }

  /** A normal form stands for exactly the values that are the same up to key order. */
  lemma {:induction false} NormalizeExact(v: Json, w: Json)
    requires WellKeyed(v) && WellKeyed(w)
    ensures Normalize(v) == Normalize(w) <==> SameValue(v, w)
    decreases v
  {
    match v
    case Arr(a) =>
      if w.Arr? && |a| == |w.items| {
        var b := w.items;
        forall i | 0 <= i < |a| ensures Normalize(v).items[i] == Normalize(w).items[i] <==> SameValue(a[i], b[i]) {
          NormalizeExact(a[i], b[i]);
        }
        assert Normalize(v) == Normalize(w) <==> Normalize(v).items == Normalize(w).items;
      }
    case Obj(a) =>
      if w.Obj? {
        if SameValue(v, w) {
          SameToNormal(a, w.fields);
        }
        if Normalize(v) == Normalize(w) {
          NormalToSame(a, w.fields);
        }
      }
    case _ =>
  }

  lemma {:induction false} SameToNormal(a: seq<(string, Json)>, b: seq<(string, Json)>)
    requires WellKeyed(Obj(a)) && WellKeyed(Obj(b)) && SameValue(Obj(a), Obj(b))
    ensures Normalize(Obj(a)) == Normalize(Obj(b))
    decreases Obj(a), 0
  {
    hide SortedKeys, Lookup, KeysOf;
    forall k | k in KeysOf(a) ensures k in KeysOf(b) && Normalize(Lookup(a, k)) == Normalize(Lookup(b, k)) {
      var i :| 0 <= i < |a| && KeysOf(a)[i] == k;
      LookupAt(a, i);
      assert a[i].0 == k;
      LookupKeyed(b, k);
      NormalizeExact(a[i].1, Lookup(b, k));
    }
    SameSizeSameKeys(a, b);
    SortedKeysCanonical(a, b);
    var keys := SortedKeys(a);
    assert NormalizeFields(a, keys) == NormalizeFields(b, keys);
  }

  lemma {:induction false} NormalToSame(a: seq<(string, Json)>, b: seq<(string, Json)>)
    requires WellKeyed(Obj(a)) && WellKeyed(Obj(b)) && Normalize(Obj(a)) == Normalize(Obj(b))
    ensures SameValue(Obj(a), Obj(b))
    decreases Obj(a), 0
  {
    hide SortedKeys, Normalize, NormalizeFields, Lookup;
    SameSortedKeys(a, b);
    SortedKeysCanonical(a, b);
    SortedKeysCanonical(b, a);
    assert |a| == |b|;
    forall i | 0 <= i < |a| ensures a[i].0 in KeysOf(b) && SameValue(a[i].1, Lookup(b, a[i].0)) {
      assert KeysOf(a)[i] in KeysOf(a);
      LookupAt(a, i);
      LookupKeyed(b, a[i].0);
      SameNormalAt(a, b, a[i].0);
      NormalizeExact(a[i].1, Lookup(b, a[i].0));
    }
  }

  lemma SameNormalAt(a: seq<(string, Json)>, b: seq<(string, Json)>, key: string)
    requires Normalize(Obj(a)) == Normalize(Obj(b)) && key in KeysOf(a) && key in KeysOf(b)
    ensures Normalize(Lookup(a, key)) == Normalize(Lookup(b, key))
  {
    hide Lookup, KeysOf;
    SameSortedKeys(a, b);
    var keys := SortedKeys(a);
    var p :| 0 <= p < |keys| && keys[p] == key;
    assert NormalizeFields(a, keys)[p] == NormalizeFields(b, keys)[p];
  }

  /** Two values print the same exactly when they are the same up to key order. */
  lemma CanonicalExact(v: Json, w: Json)
    requires WellKeyed(v) && WellKeyed(w)
    ensures Serialize(v) == Serialize(w) <==> SameValue(v, w)
  {
    NormalizeExact(v, w);
    if Serialize(v) == Serialize(w) {
      RoundTrip(v, "");
      RoundTrip(w, "");
    } else if SameValue(v, w) {
      PrintsItsNormalForm(v, w);
    }
  }

  /** Two objects with the same bindings print the same, whatever order the bindings were inserted in. */
  lemma InsertionOrderIrrelevant(a: seq<(string, Json)>, b: seq<(string, Json)>)
    requires WellKeyed(Obj(a)) && WellKeyed(Obj(b))
    requires forall f :: f in a <==> f in b
    ensures Serialize(Obj(a)) == Serialize(Obj(b))
  {
    FieldsDistinct(a);
    FieldsDistinct(b);
    Sorting.SameElements(a, b);
    forall i | 0 <= i < |a| ensures a[i].0 in KeysOf(b) && SameValue(a[i].1, Lookup(b, a[i].0)) {
      assert a[i] in b;
      var j :| 0 <= j < |b| && b[j] == a[i];
      LookupAt(b, j);
      NormalizeExact(a[i].1, a[i].1);
    }
    CanonicalExact(Obj(a), Obj(b));
  }

  lemma FieldsDistinct(fields: seq<(string, Json)>)
    requires Sorting.Distinct(KeysOf(fields))
    ensures Sorting.Distinct(fields)
  {
    forall i, j | 0 <= i < j < |fields| ensures fields[i] != fields[j] {
      assert KeysOf(fields)[i] != KeysOf(fields)[j];
    }
  }

  /** A digest under which no two texts collide. */
  ghost predicate CollisionFree(digest: string -> Key) {
    forall s, t :: digest(s) == digest(t) ==> s == t
  }

  // ---- why the text is canonical ----

  /** The code units of a character decode to it: itself, or a surrogate pair. */
  lemma UnitsDecode(c: char)
    ensures var u := UnitsOf(c);
            if |u| == 1 then u[0] == c as int < 0x1_0000
            else
              && |u| == 2 && 0xD800 <= u[0] < 0xDC00 <= u[1] < 0xE000
              && 0x1_0000 + (u[0] - 0xD800) * 0x400 + (u[1] - 0xDC00) == c as int
  {
  }

  /** Strictly before in dictionary order: at the first difference smaller, or ended there. */
  ghost predicate Precedes(a: seq<nat>, b: seq<nat>) {
    exists n: nat :: DiffersAt(a, b, n)
  }

  ghost predicate DiffersAt(a: seq<nat>, b: seq<nat>, n: nat) {
    n < |b| && n <= |a| && a[..n] == b[..n] && (n == |a| || a[n] < b[n])
  }

  lemma LexPrecedes(a: seq<nat>, b: seq<nat>)
    requires Sorting.LexLeq(Below(), a, b) && a != b
    ensures Precedes(a, b)
  {
    var n := Sorting.LexFirstBelow(Below(), a, b);
    assert DiffersAt(a, b, n);
  }

  lemma SortedKeysAreSorted(fields: seq<(string, Json)>)
    ensures Sorting.Sorted(KeyOrder(), SortedKeys(fields)) && multiset(SortedKeys(fields)) == multiset(KeysOf(fields))
  {
    hide Sorting.Sorted, Sorting.TotalOrder;
    KeyOrderIsTotal();
    Sorting.SortSorts(KeyOrder(), KeysOf(fields));
  }

  lemma KeyBefore(a: string, b: string)
    requires KeyOrder()(a, b) && a != b
    ensures Precedes(Units(a), Units(b))
  {
    ByteOrderIsUnitOrder(Units(a), Units(b));
    SortKeyInjective(a, b);
    LexPrecedes(Units(a), Units(b));
  }

  /** An object's members come out once each, their keys in strictly ascending order of UTF-16 code units. */
  lemma KeysAscend(fields: seq<(string, Json)>)
    requires Sorting.Distinct(KeysOf(fields))
    ensures var keys := KeysOf(Normalize(Obj(fields)).fields);
            && multiset(keys) == multiset(KeysOf(fields))
            && forall i, j :: 0 <= i < j < |keys| ==> Precedes(Units(keys[i]), Units(keys[j]))
  {
    hide Precedes, Units, KeyOrder, Normalize;
    var keys := SortedKeys(fields);
    SortedKeysAreSorted(fields);
    NormalKeys(fields);
    DistinctBySize(keys, KeysOf(fields));
    forall i, j | 0 <= i < j < |keys| ensures Precedes(Units(keys[i]), Units(keys[j])) {
      KeyBefore(keys[i], keys[j]);
    }
  }

  lemma NormalKeys(fields: seq<(string, Json)>)
    ensures Normalize(Obj(fields)).Obj? && KeysOf(Normalize(Obj(fields)).fields) == SortedKeys(fields)
  {
    hide Normalize;
    NormalObject(fields);
  }

  lemma NormalObject(fields: seq<(string, Json)>)
    ensures Normalize(Obj(fields)) == Obj(NormalizeFields(fields, SortedKeys(fields)))
  {
    hide SortedKeys;
  }

  /** A rearrangement of distinct elements is distinct. */
  lemma DistinctBySize(a: seq<string>, b: seq<string>)
    requires multiset(a) == multiset(b) && Sorting.Distinct(b)
    ensures Sorting.Distinct(a)
  {
    forall i, j | 0 <= i < j < |a| ensures a[i] != a[j] {
      if a[i] == a[j] {
        var p, q := a[..j], a[j..];
        assert a == p + q && p[i] == a[i] && q[0] == a[j];
        assert multiset(p)[a[i]] >= 1 && multiset(q)[a[i]] >= 1;
        assert multiset(b)[a[i]] >= 2;
        OnceEach(b, a[i]);
      }
    }
  }

  lemma {:induction false} OnceEach(s: seq<string>, x: string)
    requires Sorting.Distinct(s)
    ensures multiset(s)[x] <= 1
  {
    if s != [] {
      var rest, last := s[..|s| - 1], s[|s| - 1];
      assert s == rest + [last];
      OnceEach(rest, x);
      if last == x {
        assert x !in rest;
      }
    }
  }

  /** A character stands for itself unless it must be escaped; then it has its two-character form, if there is one, and
      only otherwise the six characters of a code in lower-case digits: section 3.2.2.2 of RFC 8785. */
  lemma EscapeIsShortest(c: char)
    ensures Escape(c) == [c] <==> c as int >= 0x20 && c != '\"' && c != '\\'
    ensures Escape(c) != [c] ==> (|Escape(c)| == 2 <==> c as int in {0x08, 0x09, 0x0A, 0x0C, 0x0D, 0x22, 0x5C})
    ensures Escape(c) != [c] ==> |Escape(c)| in {2, 6}
    ensures |Escape(c)| == 6 ==>
      Escape(c)[..4] == "\\u00" && forall i :: 4 <= i < 6 ==> '0' <= Escape(c)[i] <= '9' || 'a' <= Escape(c)[i] <= 'f'
  {
  }

  /** A number has no leading zero, and a minus sign exactly if it is negative. */
  lemma {:induction false} DigitsAreShortest(n: nat)
    ensures Digits(n) != "" && (Digits(n)[0] == '0' <==> n == 0) && (n == 0 ==> Digits(n) == "0")
  {
    if n >= 10 {
      DigitsAreShortest(n / 10);
    }
  }

  lemma NumbersAreShortest(n: int)
    ensures (Decimal(n)[0] == '-' <==> n < 0) && (Decimal(n)[0] == '0' <==> n == 0) && (n == 0 ==> Decimal(n) == "0")
    ensures n < 0 ==> Decimal(n) == "-" + Decimal(-n)
  {
    hide Hex;
    DigitsAreShortest(if n < 0 then -n else n);
    DigitsRoundTrip(if n < 0 then -n else n, "");
    assert Digits(if n < 0 then -n else n) + "" == Digits(if n < 0 then -n else n);
  }
}
