/**
 Canonical JSON: objects print with their keys in UTF-16 code unit order, strings as JSON.stringify escapes them, and
 numbers are safe integers. Strings are sequences of code units, so lone surrogates are covered.
 */
module CanonicalJson {
  import opened Primitives

  type Unit = u: int | 0 <= u < 0x1_0000
  type Units = seq<Unit>

  datatype Entry<T> = Entry(key: Units, value: T)

  datatype Value =
    | Null
    | Boolean(truth: bool)
    | Number(amount: int)
    | Text(units: Units)
    | List(items: seq<Value>)
    | Object(fields: seq<Entry<Value>>)       // own enumerable properties, in any order

  const QUOTE: Unit := 0x22
  const BACKSLASH: Unit := 0x5C
  const COMMA: Unit := 0x2C
  const COLON: Unit := 0x3A
  const OPEN_LIST: Unit := 0x5B
  const CLOSE_LIST: Unit := 0x5D
  const OPEN_OBJECT: Unit := 0x7B
  const CLOSE_OBJECT: Unit := 0x7D
  const MINUS: Unit := 0x2D
  const ZERO: Unit := 0x30

  const NULL_TEXT: Units := [0x6E, 0x75, 0x6C, 0x6C]
  const TRUE_TEXT: Units := [0x74, 0x72, 0x75, 0x65]
  const FALSE_TEXT: Units := [0x66, 0x61, 0x6C, 0x73, 0x65]

  predicate DistinctKeys<T>(entries: seq<Entry<T>>) {
    forall i, j | 0 <= i < j < |entries| :: entries[i].key != entries[j].key
  }

  /** A value of the language the manifests use. */
  predicate Valid(v: Value) {
    match v
    case Number(n) => SafeInteger(n)
    case List(items) => forall x <- items :: Valid(x)
    case Object(fields) => DistinctKeys(fields) && forall f <- fields :: Valid(f.value)
    case _ => true
  }

  // ---------------------------------------------------------------- key order

  /** Strict order of code unit strings. */
  predicate Before(a: Units, b: Units) {
    b != [] && (a == [] || a[0] < b[0] || (a[0] == b[0] && Before(a[1..], b[1..])))
  }

  function Insert<T>(e: Entry<T>, sorted: seq<Entry<T>>): seq<Entry<T>> {
    if sorted == [] || Before(e.key, sorted[0].key) then [e] + sorted
    else [sorted[0]] + Insert(e, sorted[1..])
  }

  function Sort<T>(entries: seq<Entry<T>>): seq<Entry<T>> {
    if entries == [] then [] else Insert(entries[0], Sort(entries[1..]))
  }

  // ---------------------------------------------------------------- printing

  function Hex(n: int): Unit
    requires 0 <= n < 16
  {
    if n < 10 then 0x30 + n else 0x61 + n - 10
  }

  function UnicodeEscape(u: Unit): Units {
    [BACKSLASH, 0x75, Hex(u / 16 / 16 / 16), Hex(u / 16 / 16 % 16), Hex(u / 16 % 16), Hex(u % 16)]
  }

  predicate Lead(u: Unit) { 0xD800 <= u < 0xDC00 }
  predicate Trail(u: Unit) { 0xDC00 <= u < 0xE000 }

  /** The letter of a two-unit escape, if the unit has one. */
  function ShortEscape(u: Unit): Option<Unit> {
    if u == QUOTE || u == BACKSLASH then Some(u)
    else if u == 8 then Some(0x62)
    else if u == 9 then Some(0x74)
    else if u == 10 then Some(0x6E)
    else if u == 12 then Some(0x66)
    else if u == 13 then Some(0x72)
    else None
  }

  /** String contents as JSON.stringify writes them: pairs of surrogates stay, lone ones are escaped. */
  function Escape(s: Units): Units {
    if s == [] then []
    else if |s| >= 2 && Lead(s[0]) && Trail(s[1]) then s[..2] + Escape(s[2..])
    else
      (if ShortEscape(s[0]).Some? then [BACKSLASH, ShortEscape(s[0]).value]
       else if s[0] < 0x20 || Lead(s[0]) || Trail(s[0]) then UnicodeEscape(s[0])
       else [s[0]])
      + Escape(s[1..])
  }

  function Quoted(s: Units): Units {
    [QUOTE] + Escape(s) + [QUOTE]
  }

  function Digits(n: nat): Units {
    if n < 10 then [ZERO + n] else Digits(n / 10) + [ZERO + n % 10]
  }

  function Decimal(n: int): Units {
    if n < 0 then [MINUS] + Digits(-n) else Digits(n)
  }

  function Joined(parts: seq<Units>): Units {
    if parts == [] then []
    else if |parts| == 1 then parts[0]
    else parts[0] + [COMMA] + Joined(parts[1..])
  }

  function Members(entries: seq<Entry<Units>>): seq<Units> {
    if entries == [] then [] else [Quoted(entries[0].key) + [COLON] + entries[0].value] + Members(entries[1..])
  }

  /** The canonical text of a value. */
  function Canonical(v: Value): Units {
    match v
    case Null => NULL_TEXT
    case Boolean(b) => if b then TRUE_TEXT else FALSE_TEXT
    case Number(n) => Decimal(n)
    case Text(s) => Quoted(s)
    case List(items) => [OPEN_LIST] + Joined(CanonicalItems(items)) + [CLOSE_LIST]
    case Object(fields) => [OPEN_OBJECT] + Joined(Members(Sort(CanonicalFields(fields)))) + [CLOSE_OBJECT]
  }

  function CanonicalItems(items: seq<Value>): seq<Units> {
    if items == [] then [] else [Canonical(items[0])] + CanonicalItems(items[1..])
  }

  function CanonicalFields(fields: seq<Entry<Value>>): seq<Entry<Units>> {
    if fields == [] then []
    else [Entry(fields[0].key, Canonical(fields[0].value))] + CanonicalFields(fields[1..])
  }

  // ---------------------------------------------------------------- parsing

  datatype Parsed<T> = Parsed(value: T, rest: Units)

  predicate White(u: Unit) {
    u == 0x20 || u == 9 || u == 10 || u == 13
  }

  function SkipWhite(s: Units): (t: Units)
    ensures |t| <= |s|
  {
    if s != [] && White(s[0]) then SkipWhite(s[1..]) else s
  }

  function HexValue(u: Unit): (r: Option<int>)
    ensures r.Some? ==> 0 <= r.value < 16
  {
    if 0x30 <= u <= 0x39 then Some(u - 0x30)
    else if 0x61 <= u <= 0x66 then Some(u - 0x61 + 10)
    else if 0x41 <= u <= 0x46 then Some(u - 0x41 + 10)
    else None
  }

  function ReadHex(s: Units): (r: Option<Unit>)
    requires |s| == 4
  {
    var a, b, c, d := HexValue(s[0]), HexValue(s[1]), HexValue(s[2]), HexValue(s[3]);
    if a.Some? && b.Some? && c.Some? && d.Some?
    then Some(((a.value * 16 + b.value) * 16 + c.value) * 16 + d.value) else None
  }

  function ReadShort(u: Unit): Option<Unit> {
    if u == QUOTE || u == BACKSLASH || u == 0x2F then Some(u)
    else if u == 0x62 then Some(8)
    else if u == 0x74 then Some(9)
    else if u == 0x6E then Some(10)
    else if u == 0x66 then Some(12)
    else if u == 0x72 then Some(13)
    else None
  }

  /** String contents up to and including the closing quote (section 7 of RFC 8259). */
  function ParseText(s: Units): (r: Option<Parsed<Units>>)
    ensures r.Some? ==> |r.value.rest| < |s|
  {
    if s == [] || s[0] < 0x20 then None
    else if s[0] == QUOTE then Some(Parsed([], s[1..]))
    else if s[0] != BACKSLASH then Prepend(s[0], ParseText(s[1..]))
    else if |s| < 2 then None
    else if ReadShort(s[1]).Some? then Prepend(ReadShort(s[1]).value, ParseText(s[2..]))
    else if s[1] == 0x75 && |s| >= 6 && ReadHex(s[2..6]).Some? then Prepend(ReadHex(s[2..6]).value, ParseText(s[6..]))
    else None
  }

  function Prepend(u: Unit, r: Option<Parsed<Units>>): Option<Parsed<Units>> {
    match r
    case None => None
    case Some(p) => Some(Parsed([u] + p.value, p.rest))
  }

  predicate Digit(u: Unit) {
    0x30 <= u <= 0x39
  }

  function DigitCount(s: Units): (n: nat)
    ensures n <= |s|
  {
    if s != [] && Digit(s[0]) then 1 + DigitCount(s[1..]) else 0
  }

  function Amount(digits: Units): int {
    if digits == [] then 0 else Amount(digits[..|digits| - 1]) * 10 + digits[|digits| - 1] - ZERO
  }

  /**
   An integer without a superfluous leading zero. Fractions, exponents, unsafe integers and -0 are outside the model.
   */
  function ParseNumber(s: Units): (r: Option<Parsed<int>>)
    requires s != []
    ensures r.Some? ==> |r.value.rest| < |s|
  {
    var negative := s[0] == MINUS;
    var t := if negative then s[1..] else s;
    var n := DigitCount(t);
    var amount := if negative then -Amount(t[..n]) else Amount(t[..n]);
    if n == 0 || (n > 1 && t[0] == ZERO) || !SafeInteger(amount) || (negative && amount == 0)
       || (n < |t| && t[n] in [0x2E, 0x65, 0x45]) then None
    else Some(Parsed(amount, t[n..]))
  }

  /** An own property is added, or overwritten where it stands. */
  function Put(fields: seq<Entry<Value>>, key: Units, value: Value): seq<Entry<Value>> {
    if fields == [] then [Entry(key, value)]
    else if fields[0].key == key then [Entry(key, value)] + fields[1..]
    else [fields[0]] + Put(fields[1..], key, value)
  }

  function ParseValue(s: Units): (r: Option<Parsed<Value>>)
    ensures r.Some? ==> |r.value.rest| < |s|
    decreases |s|, 2
  {
    var t := SkipWhite(s);
    if t == [] then None
    else if NULL_TEXT <= t then Some(Parsed(Null, t[4..]))
    else if TRUE_TEXT <= t then Some(Parsed(Boolean(true), t[4..]))
    else if FALSE_TEXT <= t then Some(Parsed(Boolean(false), t[5..]))
    else if t[0] == QUOTE then
      match ParseText(t[1..])
      case None => None
      case Some(p) => Some(Parsed(Text(p.value), p.rest))
    else if t[0] == OPEN_LIST then ParseList(t[1..])
    else if t[0] == OPEN_OBJECT then ParseObject(t[1..])
    else
      match ParseNumber(t)
      case None => None
      case Some(p) => Some(Parsed(Number(p.value), p.rest))
  }

  function ParseList(s: Units): (r: Option<Parsed<Value>>)
    ensures r.Some? ==> |r.value.rest| < |s|
    decreases |s|, 4
  {
    var t := SkipWhite(s);
    if t != [] && t[0] == CLOSE_LIST then Some(Parsed(List([]), t[1..]))
    else
      match ParseItems(t)
      case None => None
      case Some(p) => Some(Parsed(List(p.value), p.rest))
  }

  function ParseObject(s: Units): (r: Option<Parsed<Value>>)
    ensures r.Some? ==> |r.value.rest| < |s|
    decreases |s|, 4
  {
    var t := SkipWhite(s);
    if t != [] && t[0] == CLOSE_OBJECT then Some(Parsed(Object([]), t[1..]))
    else
      match ParseFields([], t)
      case None => None
      case Some(p) => Some(Parsed(Object(p.value), p.rest))
  }

  function ParseItems(s: Units): (r: Option<Parsed<seq<Value>>>)
    ensures r.Some? ==> |r.value.rest| < |s|
    decreases |s|, 3
  {
    match ParseValue(s)
    case None => None
    case Some(first) =>
      var t := SkipWhite(first.rest);
      if t == [] then None
      else if t[0] == CLOSE_LIST then Some(Parsed([first.value], t[1..]))
      else if t[0] != COMMA then None
      else
        match ParseItems(t[1..])
        case None => None
        case Some(more) => Some(Parsed([first.value] + more.value, more.rest))
  }

  function ParseFields(fields: seq<Entry<Value>>, s: Units): (r: Option<Parsed<seq<Entry<Value>>>>)
    ensures r.Some? ==> |r.value.rest| < |s|
    decreases |s|, 3
  {
    var t := SkipWhite(s);
    if t == [] || t[0] != QUOTE then None
    else
      match ParseText(t[1..])
      case None => None
      case Some(key) =>
        var u := SkipWhite(key.rest);
        if u == [] || u[0] != COLON then None
        else
          match ParseValue(u[1..])
          case None => None
          case Some(value) =>
            var w := SkipWhite(value.rest);
            var put := Put(fields, key.value, value.value);
            if w == [] then None
            else if w[0] == CLOSE_OBJECT then Some(Parsed(put, w[1..]))
            else if w[0] != COMMA then None
            else ParseFields(put, w[1..])
  }

  /** A whole JSON text. */
  function Parse(s: Units): Option<Value> {
    match ParseValue(s)
    case None => None
    case Some(p) => if SkipWhite(p.rest) == [] then Some(p.value) else None
  }
}
