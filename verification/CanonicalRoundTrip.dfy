/** Parsing canonical text gives back the value it was printed from, with every object's keys in order. */
module CanonicalRoundTrip {
  import opened Primitives
  import opened CanonicalJson

  // ---------------------------------------------------------------- equality up to key order

  /** The same value: lists agree item by item, objects key by key in whatever order they list them. */
  predicate Same(v: Value, w: Value) {
    match (v, w)
    case (List(a), List(b)) => |a| == |b| && forall i | 0 <= i < |a| :: Same(a[i], b[i])
    case (Object(f), Object(g)) =>
      |f| == |g| && forall i | 0 <= i < |f| ::
        exists j | 0 <= j < |g| :: f[i].key == g[j].key && Same(f[i].value, g[j].value)
    case _ => v == w
  }

  /** The value with every object's fields in key order. */
  function Norm(v: Value): Value {
    match v
    case List(items) => List(NormItems(items))
    case Object(fields) => Object(Sort(NormFields(fields)))
    case _ => v
  }

  function NormItems(items: seq<Value>): seq<Value> {
    if items == [] then [] else [Norm(items[0])] + NormItems(items[1..])
  }

  function NormFields(fields: seq<Entry<Value>>): seq<Entry<Value>> {
    if fields == [] then [] else [Entry(fields[0].key, Norm(fields[0].value))] + NormFields(fields[1..])
  }

  // ---------------------------------------------------------------- the order of keys, and sorting

  lemma {:induction false} BeforeIsTotal(a: Units, b: Units)
    ensures a == b || Before(a, b) || Before(b, a)
    ensures !(Before(a, b) && Before(b, a)) && !Before(a, a)
  {
    if a != [] {
      BeforeIsTotal(a[1..], a[1..]);
    }
    if a != [] && b != [] && a[0] == b[0] {
      BeforeIsTotal(a[1..], b[1..]);
      assert a == [a[0]] + a[1..] && b == [b[0]] + b[1..];
    }
  }

  lemma {:induction false} BeforeIsTransitive(a: Units, b: Units, c: Units)
    requires Before(a, b) && Before(b, c)
    ensures Before(a, c)
  {
    if a != [] && a[0] == b[0] && b[0] == c[0] {
      BeforeIsTransitive(a[1..], b[1..], c[1..]);
    }
  }

  /** Inserting two entries with different keys does not depend on which goes first. */
  lemma {:induction false} InsertCommutes<T>(a: Entry<T>, b: Entry<T>, s: seq<Entry<T>>)
    requires a.key != b.key
    ensures Insert(a, Insert(b, s)) == Insert(b, Insert(a, s))
  {
    BeforeIsTotal(a.key, b.key);
    if s != [] {
      if Before(a.key, b.key) && Before(b.key, s[0].key) {
        BeforeIsTransitive(a.key, b.key, s[0].key);
      }
      if Before(b.key, a.key) && Before(a.key, s[0].key) {
        BeforeIsTransitive(b.key, a.key, s[0].key);
      }
      InsertCommutes(a, b, s[1..]);
    }
  }

  function Without<T>(s: seq<T>, j: nat): seq<T>
    requires j < |s|
  {
    s[..j] + s[j + 1..]
  }

  /** Sorting can start from any entry. */
  lemma {:induction false} SortFrom<T>(entries: seq<Entry<T>>, j: nat)
    requires DistinctKeys(entries) && j < |entries|
    ensures Sort(entries) == Insert(entries[j], Sort(Without(entries, j)))
  {
    if j == 0 {
      assert Without(entries, 0) == entries[1..];
    } else {
      SortFrom(entries[1..], j - 1);
      assert Without(entries, j)[1..] == Without(entries[1..], j - 1);
      InsertCommutes(entries[0], entries[j], Sort(Without(entries[1..], j - 1)));
    }
  }

  /** Sorting depends on which entries there are, not on their order. */
  lemma {:induction false} SortIgnoresOrder<T(!new)>(a: seq<Entry<T>>, b: seq<Entry<T>>)
    requires DistinctKeys(a) && DistinctKeys(b) && |a| == |b|
    requires forall e <- a :: e in b
    ensures Sort(a) == Sort(b)
    decreases |a|
  {
    if a != [] {
      assert a[0] in b;
      var j :| 0 <= j < |b| && b[j] == a[0];
      forall e | e in a[1..] ensures e in Without(b, j) {
        var k :| 0 <= k < |a[1..]| && a[1..][k] == e;
        assert e == a[k + 1] && e in a;
        var l :| 0 <= l < |b| && b[l] == e;
        assert l < j ==> Without(b, j)[l] == e;
        assert l > j ==> Without(b, j)[l - 1] == e;
      }
      SortIgnoresOrder(a[1..], Without(b, j));
      SortFrom(b, j);
    }
  }

  lemma {:induction false} InsertHolds<T(!new)>(e: Entry<T>, s: seq<Entry<T>>)
    ensures |Insert(e, s)| == |s| + 1
    ensures forall x :: x in Insert(e, s) <==> x == e || x in s
  {
    if s != [] {
      InsertHolds(e, s[1..]);
      assert s == [s[0]] + s[1..];
    }
  }

  lemma {:induction false} SortHolds<T(!new)>(entries: seq<Entry<T>>)
    ensures |Sort(entries)| == |entries|
    ensures forall x :: x in Sort(entries) <==> x in entries
  {
    if entries != [] {
      SortHolds(entries[1..]);
      InsertHolds(entries[0], Sort(entries[1..]));
      assert entries == [entries[0]] + entries[1..];
    }
  }

  /** With distinct keys, the first key does not occur again. */
  lemma FirstKeyIsAlone<T(!new)>(entries: seq<Entry<T>>, x: Entry<T>)
    requires DistinctKeys(entries) && entries != [] && x in entries[1..]
    ensures x.key != entries[0].key
  {
    var rest := entries[1..];
    var k :| 0 <= k < |rest| && rest[k] == x;
    assert entries[k + 1] == x;
  }

  lemma {:induction false} DistinctInsert<T(!new)>(e: Entry<T>, s: seq<Entry<T>>)
    requires DistinctKeys(s) && forall x <- s :: x.key != e.key
    ensures DistinctKeys(Insert(e, s))
  {
    if s != [] && !Before(e.key, s[0].key) {
      DistinctInsert(e, s[1..]);
      InsertHolds(e, s[1..]);
      var r := Insert(e, s[1..]);
      forall i | 0 <= i < |r| ensures r[i].key != s[0].key {
        assert r[i] in r;
        if r[i] == e {
          assert s[0] in s;
        } else {
          FirstKeyIsAlone(s, r[i]);
        }
      }
    }
  }

  lemma {:induction false} DistinctSort<T(!new)>(entries: seq<Entry<T>>)
    requires DistinctKeys(entries)
    ensures DistinctKeys(Sort(entries))
  {
    if entries != [] {
      DistinctSort(entries[1..]);
      SortHolds(entries[1..]);
      forall x | x in Sort(entries[1..]) ensures x.key != entries[0].key {
        assert x in entries[1..];
        FirstKeyIsAlone(entries, x);
      }
      DistinctInsert(entries[0], Sort(entries[1..]));
    }
  }

  // ---------------------------------------------------------------- strings

  lemma HexDigitBack(n: int)
    requires 0 <= n < 16
    ensures HexValue(Hex(n)) == Some(n)
  {
  }

  lemma HexBack(u: Unit)
    ensures ReadHex(UnicodeEscape(u)[2..6]) == Some(u)
  {
    HexDigitBack(u / 16 / 16 / 16);
    HexDigitBack(u / 16 / 16 % 16);
    HexDigitBack(u / 16 % 16);
    HexDigitBack(u % 16);
  }

  lemma Regroup<T>(a: seq<T>, b: seq<T>, c: seq<T>)
    ensures (a + b) + c == a + (b + c)
  {
  }

  /** How much of a string one escape step covers, and what it writes for it. */
  function Chunk(s: Units): nat
    requires s != []
  {
    if |s| >= 2 && Lead(s[0]) && Trail(s[1]) then 2 else 1
  }

  function ChunkText(s: Units): Units
    requires s != []
  {
    if Chunk(s) == 2 then s[..2]
    else if ShortEscape(s[0]).Some? then [BACKSLASH, ShortEscape(s[0]).value]
    else if s[0] < 0x20 || Lead(s[0]) || Trail(s[0]) then UnicodeEscape(s[0])
    else [s[0]]
  }

  lemma ChunkBack(s: Units, tail: Units, rest: Units)
    requires s != [] && ParseText(tail) == Some(Parsed(s[Chunk(s)..], rest))
    ensures ParseText(ChunkText(s) + tail) == Some(Parsed(s, rest))
  {
    if Chunk(s) == 2 {
      PlainBack(s[1], s[2..], tail, rest);
      PlainBack(s[0], [s[1]] + s[2..], [s[1]] + tail, rest);
      Regroup([s[0]], [s[1]], tail);
      assert s[..2] == [s[0]] + [s[1]];
      assert s == [s[0]] + ([s[1]] + s[2..]);
    } else {
      assert s == [s[0]] + s[1..];
      if ShortEscape(s[0]).Some? {
        ShortBack(s[0], s[1..], tail, rest);
      } else if s[0] < 0x20 || Lead(s[0]) || Trail(s[0]) {
        UnicodeBack(s[0], s[1..], tail, rest);
      } else {
        PlainBack(s[0], s[1..], tail, rest);
      }
    }
  }

  /** Reading escaped contents gives the string back, and stops at the closing quote. */
  lemma {:induction false} EscapeBack(s: Units, rest: Units)
    ensures ParseText(Escape(s) + ([QUOTE] + rest)) == Some(Parsed(s, rest))
  {
    if s == [] {
      assert Escape(s) + ([QUOTE] + rest) == [QUOTE] + rest;
      assert ([QUOTE] + rest)[1..] == rest;
    } else {
      var n := Chunk(s);
      EscapeBack(s[n..], rest);
      ChunkBack(s, Escape(s[n..]) + ([QUOTE] + rest), rest);
      Regroup(ChunkText(s), Escape(s[n..]), [QUOTE] + rest);
    }
  }

  lemma PlainBack(u: Unit, s: Units, tail: Units, rest: Units)
    requires u >= 0x20 && u != QUOTE && u != BACKSLASH
    requires ParseText(tail) == Some(Parsed(s, rest))
    ensures ParseText([u] + tail) == Some(Parsed([u] + s, rest))
  {
    assert ([u] + tail)[1..] == tail;
  }

  lemma ShortBack(u: Unit, s: Units, tail: Units, rest: Units)
    requires ShortEscape(u).Some?
    requires ParseText(tail) == Some(Parsed(s, rest))
    ensures ParseText([BACKSLASH, ShortEscape(u).value] + tail) == Some(Parsed([u] + s, rest))
  {
    var whole := [BACKSLASH, ShortEscape(u).value] + tail;
    assert whole[2..] == tail && whole[0] == BACKSLASH && whole[1] == ShortEscape(u).value;
  }

  lemma UnicodeBack(u: Unit, s: Units, tail: Units, rest: Units)
    requires ParseText(tail) == Some(Parsed(s, rest))
    ensures ParseText(UnicodeEscape(u) + tail) == Some(Parsed([u] + s, rest))
  {
    var whole := UnicodeEscape(u) + tail;
    assert whole[6..] == tail && whole[2..6] == UnicodeEscape(u)[2..6];
    assert whole[0] == BACKSLASH && whole[1] == 0x75;
    HexBack(u);
  }

  // ---------------------------------------------------------------- numbers

  lemma {:induction false} DigitsShape(n: nat)
    ensures Digits(n) != [] && (forall u <- Digits(n) :: Digit(u))
    ensures Amount(Digits(n)) == n
    ensures Digits(n)[0] == ZERO ==> n == 0
  {
    if n >= 10 {
      DigitsShape(n / 10);
      assert Digits(n)[..|Digits(n)| - 1] == Digits(n / 10);
    } else {
      assert Digits(n)[..0] == [];
    }
  }

  lemma {:induction false} DigitCountOf(digits: Units, rest: Units)
    requires forall u <- digits :: Digit(u)
    requires rest == [] || !Digit(rest[0])
    ensures DigitCount(digits + rest) == |digits|
  {
    if digits == [] {
      assert digits + rest == rest;
    } else {
      assert (digits + rest)[1..] == digits[1..] + rest;
      DigitCountOf(digits[1..], rest);
    }
  }

  /** What follows a number in canonical text cannot be read as part of it. */
  predicate Stops(rest: Units) {
    rest == [] || !(Digit(rest[0]) || rest[0] in [0x2E, 0x65, 0x45])
  }

  lemma DigitsBack(n: nat, rest: Units)
    requires Stops(rest)
    ensures var t := Digits(n) + rest;
            && DigitCount(t) == |Digits(n)| > 0 && Digit(t[0])
            && t[..|Digits(n)|] == Digits(n) && t[|Digits(n)|..] == rest
            && Amount(Digits(n)) == n && (t[0] == ZERO ==> |Digits(n)| == 1)
  {
    DigitsShape(n);
    DigitCountOf(Digits(n), rest);
    assert Digits(n)[0] in Digits(n);
  }

  lemma NumberBack(n: int, rest: Units)
    requires SafeInteger(n) && Stops(rest)
    ensures ParseNumber(Decimal(n) + rest) == Some(Parsed(n, rest))
  {
    if n < 0 {
      var t := Digits(-n) + rest;
      DigitsBack(-n, rest);
      Regroup([MINUS], Digits(-n), rest);
      assert ([MINUS] + t)[1..] == t;
    } else {
      DigitsBack(n, rest);
    }
  }

  // ---------------------------------------------------------------- values

  lemma Unskipped(s: Units)
    requires s == [] || !White(s[0])
    ensures SkipWhite(s) == s
  {
  }

  lemma {:induction false} NormItemsAt(items: seq<Value>)
    ensures |NormItems(items)| == |items| == |CanonicalItems(items)|
    ensures forall i | 0 <= i < |items| :: NormItems(items)[i] == Norm(items[i])
  {
    if items != [] {
      NormItemsAt(items[1..]);
    }
  }

  lemma {:induction false} FieldsAt(fields: seq<Entry<Value>>)
    ensures |NormFields(fields)| == |fields| == |CanonicalFields(fields)|
    ensures forall i | 0 <= i < |fields| :: NormFields(fields)[i] == Entry(fields[i].key, Norm(fields[i].value))
    ensures forall i | 0 <= i < |fields| ::
            CanonicalFields(fields)[i] == Entry(fields[i].key, Canonical(fields[i].value))
  {
    if fields != [] {
      FieldsAt(fields[1..]);
    }
  }

  /** Sorting by key and then printing or normalising each value is the same as doing it first. */
  lemma {:induction false} InsertMaps(e: Entry<Value>, s: seq<Entry<Value>>)
    ensures CanonicalFields(Insert(e, s)) == Insert(Entry(e.key, Canonical(e.value)), CanonicalFields(s))
    ensures NormFields(Insert(e, s)) == Insert(Entry(e.key, Norm(e.value)), NormFields(s))
  {
    if s == [] || Before(e.key, s[0].key) {
      assert ([e] + s)[1..] == s;
    } else {
      InsertMaps(e, s[1..]);
      assert Insert(e, s)[1..] == Insert(e, s[1..]);
      assert CanonicalFields(s)[1..] == CanonicalFields(s[1..]);
      assert NormFields(s)[1..] == NormFields(s[1..]);
    }
  }

  lemma {:induction false} SortMaps(fields: seq<Entry<Value>>)
    ensures CanonicalFields(Sort(fields)) == Sort(CanonicalFields(fields))
    ensures NormFields(Sort(fields)) == Sort(NormFields(fields))
  {
    if fields != [] {
      SortMaps(fields[1..]);
      InsertMaps(fields[0], Sort(fields[1..]));
    }
  }

  /** Canonical text starts with no white space, and its first unit tells the kind of value. */
  lemma FirstUnit(v: Value)
    ensures Canonical(v) != []
    ensures var u := Canonical(v)[0];
            match v
            case Null => u == 0x6E
            case Boolean(b) => u == if b then 0x74 else 0x66
            case Number(_) => u == MINUS || Digit(u)
            case Text(_) => u == QUOTE
            case List(_) => u == OPEN_LIST
            case Object(_) => u == OPEN_OBJECT
  {
    if v.Number? {
      DigitsShape(if v.amount < 0 then -v.amount else v.amount);
      assert v.amount >= 0 ==> Digits(v.amount)[0] in Digits(v.amount);
    }
  }

  lemma {:induction false} PutNew(fields: seq<Entry<Value>>, key: Units, value: Value)
    requires forall f <- fields :: f.key != key
    ensures Put(fields, key, value) == fields + [Entry(key, value)]
  {
    if fields != [] {
      PutNew(fields[1..], key, value);
    }
  }

  // ---- one step of the parser at a time

  lemma ListRule(body: Units, items: seq<Value>, rest: Units)
    requires body != [] && !White(body[0]) && body[0] != CLOSE_LIST
    requires ParseItems(body) == Some(Parsed(items, rest))
    ensures ParseValue([OPEN_LIST] + body) == Some(Parsed(List(items), rest))
  {
    Unskipped([OPEN_LIST] + body);
    assert ([OPEN_LIST] + body)[1..] == body;
    Unskipped(body);
  }

  lemma ObjectRule(body: Units, fields: seq<Entry<Value>>, rest: Units)
    requires body != [] && !White(body[0]) && body[0] != CLOSE_OBJECT
    requires ParseFields([], body) == Some(Parsed(fields, rest))
    ensures ParseValue([OPEN_OBJECT] + body) == Some(Parsed(Object(fields), rest))
  {
    Unskipped([OPEN_OBJECT] + body);
    assert ([OPEN_OBJECT] + body)[1..] == body;
    Unskipped(body);
  }

  lemma EmptyRule(rest: Units)
    ensures ParseValue([OPEN_LIST, CLOSE_LIST] + rest) == Some(Parsed(List([]), rest))
    ensures ParseValue([OPEN_OBJECT, CLOSE_OBJECT] + rest) == Some(Parsed(Object([]), rest))
  {
    Unskipped([OPEN_LIST, CLOSE_LIST] + rest);
    Unskipped([CLOSE_LIST] + rest);
    assert ([OPEN_LIST, CLOSE_LIST] + rest)[1..] == [CLOSE_LIST] + rest && ([CLOSE_LIST] + rest)[1..] == rest;
    Unskipped([OPEN_OBJECT, CLOSE_OBJECT] + rest);
    Unskipped([CLOSE_OBJECT] + rest);
    assert ([OPEN_OBJECT, CLOSE_OBJECT] + rest)[1..] == [CLOSE_OBJECT] + rest && ([CLOSE_OBJECT] + rest)[1..] == rest;
  }

  lemma LastItemRule(s: Units, v: Value, rest: Units)
    requires ParseValue(s) == Some(Parsed(v, [CLOSE_LIST] + rest))
    ensures ParseItems(s) == Some(Parsed([v], rest))
  {
    Unskipped([CLOSE_LIST] + rest);
    assert ([CLOSE_LIST] + rest)[1..] == rest;
  }

  lemma NextItemRule(s: Units, v: Value, more: Units, items: seq<Value>, rest: Units)
    requires ParseValue(s) == Some(Parsed(v, [COMMA] + more))
    requires ParseItems(more) == Some(Parsed(items, rest))
    ensures ParseItems(s) == Some(Parsed([v] + items, rest))
  {
    Unskipped([COMMA] + more);
    assert ([COMMA] + more)[1..] == more;
  }

  lemma FieldRule(fields: seq<Entry<Value>>, s: Units, key: Units, text: Units, v: Value, tail: Units)
    requires ParseText(s) == Some(Parsed(key, [COLON] + text))
    requires ParseValue(text) == Some(Parsed(v, tail))
    requires tail != [] && (tail[0] == COMMA || tail[0] == CLOSE_OBJECT)
    ensures ParseFields(fields, [QUOTE] + s) ==
            if tail[0] == CLOSE_OBJECT then Some(Parsed(Put(fields, key, v), tail[1..]))
            else ParseFields(Put(fields, key, v), tail[1..])
  {
    Unskipped([QUOTE] + s);
    assert ([QUOTE] + s)[1..] == s;
    Unskipped([COLON] + text);
    assert ([COLON] + text)[1..] == text;
    Unskipped(tail);
  }

  // ---- whole values

  lemma WordBack(v: Value, rest: Units)
    requires v.Null? || v.Boolean?
    ensures ParseValue(Canonical(v) + rest) == Some(Parsed(v, rest))
  {
    var word := Canonical(v);
    var t := word + rest;
    Unskipped(t);
    assert word <= t && t[|word|..] == rest;
    assert t[0] == word[0];
  }

  lemma NumberValueBack(n: int, rest: Units)
    requires SafeInteger(n) && Stops(rest)
    ensures ParseValue(Canonical(Number(n)) + rest) == Some(Parsed(Number(n), rest))
  {
    var t := Canonical(Number(n)) + rest;
    FirstUnit(Number(n));
    assert t[0] == Canonical(Number(n))[0];
    Unskipped(t);
    NumberBack(n, rest);
  }

  lemma TextBack(units: Units, rest: Units)
    ensures ParseValue(Canonical(Text(units)) + rest) == Some(Parsed(Text(units), rest))
  {
    var body := Escape(units) + ([QUOTE] + rest);
    EscapeBack(units, rest);
    Regroup([QUOTE] + Escape(units), [QUOTE], rest);
    Regroup([QUOTE], Escape(units), [QUOTE] + rest);
    assert Canonical(Text(units)) + rest == [QUOTE] + body;
    Unskipped([QUOTE] + body);
    assert ([QUOTE] + body)[1..] == body;
  }

  /** Parsing canonical text gives the value back, with its keys in order. */
  lemma {:induction false} ValueBack(v: Value, rest: Units)
    requires Valid(v) && Stops(rest)
    ensures ParseValue(Canonical(v) + rest) == Some(Parsed(Norm(v), rest))
    decreases v, 1
  {
    match v
    case List(items) =>
      if items == [] {
        EmptyRule(rest);
        assert Canonical(v) + rest == [OPEN_LIST, CLOSE_LIST] + rest;
      } else {
        ListBack(v, rest);
      }
    case Object(fields) =>
      if fields == [] {
        EmptyRule(rest);
        assert Canonical(v) + rest == [OPEN_OBJECT, CLOSE_OBJECT] + rest;
      } else {
        ObjectBack(v, rest);
      }
    case Number(n) => NumberValueBack(n, rest);
    case Text(units) => TextBack(units, rest);
    case _ => WordBack(v, rest);
  }

  function ItemsText(items: seq<Value>): Units {
    Joined(CanonicalItems(items))
  }

  lemma ItemsTextUnfolds(items: seq<Value>)
    requires items != []
    ensures ItemsText(items) ==
            if |items| == 1 then Canonical(items[0])
            else Canonical(items[0]) + [COMMA] + ItemsText(items[1..])
  {
    NormItemsAt(items);
    NormItemsAt(items[1..]);
    assert CanonicalItems(items)[1..] == CanonicalItems(items[1..]);
  }

  lemma ListText(v: Value, rest: Units)
    requires v.List?
    ensures Canonical(v) + rest == [OPEN_LIST] + (ItemsText(v.items) + ([CLOSE_LIST] + rest))
  {
  }

  /** The text of a list's items with what follows, split after the first. */
  lemma ItemsTextSplits(items: seq<Value>, rest: Units)
    requires items != []
    ensures ItemsText(items) + ([CLOSE_LIST] + rest) ==
            Canonical(items[0]) + if |items| == 1 then [CLOSE_LIST] + rest
                                  else [COMMA] + (ItemsText(items[1..]) + ([CLOSE_LIST] + rest))
  {
    ItemsTextUnfolds(items);
    if |items| > 1 {
      Regroup([COMMA], ItemsText(items[1..]), [CLOSE_LIST] + rest);
      Regroup(Canonical(items[0]), [COMMA] + ItemsText(items[1..]), [CLOSE_LIST] + rest);
      Regroup(Canonical(items[0]), [COMMA], ItemsText(items[1..]));
    }
  }

  lemma {:induction false} ListBack(v: Value, rest: Units)
    requires Valid(v) && v.List? && v.items != []
    ensures ParseValue(Canonical(v) + rest) == Some(Parsed(Norm(v), rest))
    decreases v, 0
  {
    var body := ItemsText(v.items) + ([CLOSE_LIST] + rest);
    ItemsBack(v, v.items, rest);
    ItemsTextSplits(v.items, rest);
    FirstUnit(v.items[0]);
    ListRule(body, NormItems(v.items), rest);
    ListText(v, rest);
  }

  /** A tail of the items of a list. */
  lemma {:induction false} ItemsBack(v: Value, items: seq<Value>, rest: Units)
    requires Valid(v) && v.List? && items != [] && forall x <- items :: x in v.items
    ensures ParseItems(ItemsText(items) + ([CLOSE_LIST] + rest)) == Some(Parsed(NormItems(items), rest))
    decreases v, 0, |items|
  {
    ItemsTextSplits(items, rest);
    assert items[0] in v.items;
    if |items| == 1 {
      ValueBack(items[0], [CLOSE_LIST] + rest);
      LastItemRule(ItemsText(items) + ([CLOSE_LIST] + rest), Norm(items[0]), rest);
      assert NormItems(items) == [Norm(items[0])];
    } else {
      var more := ItemsText(items[1..]) + ([CLOSE_LIST] + rest);
      ValueBack(items[0], [COMMA] + more);
      ItemsBack(v, items[1..], rest);
      NextItemRule(Canonical(items[0]) + ([COMMA] + more), Norm(items[0]), more, NormItems(items[1..]), rest);
    }
  }

  function FieldsText(fields: seq<Entry<Value>>): Units {
    Joined(Members(CanonicalFields(fields)))
  }

  lemma FieldsTextUnfolds(fields: seq<Entry<Value>>)
    requires fields != []
    ensures FieldsText(fields) ==
            Quoted(fields[0].key) + [COLON] + Canonical(fields[0].value)
            + if |fields| == 1 then [] else [COMMA] + FieldsText(fields[1..])
  {
    var entries := CanonicalFields(fields);
    assert entries[1..] == CanonicalFields(fields[1..]);
    var first := Quoted(fields[0].key) + [COLON] + Canonical(fields[0].value);
    assert Members(entries) == [first] + Members(entries[1..]);
    if |fields| == 1 {
      assert Members(entries) == [first] && first + [] == first;
    } else {
      assert Members(entries[1..]) != [] && Members(entries)[1..] == Members(entries[1..]) by {
        FieldsAt(fields[1..]);
      }
    }
  }

  lemma ObjectText(v: Value, rest: Units)
    requires v.Object?
    ensures Canonical(v) + rest == [OPEN_OBJECT] + (FieldsText(Sort(v.fields)) + ([CLOSE_OBJECT] + rest))
  {
    SortMaps(v.fields);
  }

  /** The pieces the parser meets when it reads the first of some fields. */
  function FieldTail(fields: seq<Entry<Value>>, rest: Units): Units
    requires fields != []
  {
    if |fields| == 1 then [CLOSE_OBJECT] + rest else [COMMA] + (FieldsText(fields[1..]) + ([CLOSE_OBJECT] + rest))
  }

  lemma FieldsTextSplits(fields: seq<Entry<Value>>, rest: Units)
    requires fields != []
    ensures FieldsText(fields) + ([CLOSE_OBJECT] + rest) ==
            [QUOTE] + (Escape(fields[0].key)
                       + ([QUOTE] + ([COLON] + (Canonical(fields[0].value) + FieldTail(fields, rest)))))
  {
    FieldsTextUnfolds(fields);
    var k, t := Escape(fields[0].key), Canonical(fields[0].value);
    if |fields| == 1 {
      ShiftRight(k, t, [], [CLOSE_OBJECT] + rest);
      assert [] + ([CLOSE_OBJECT] + rest) == [CLOSE_OBJECT] + rest;
    } else {
      ShiftRight(k, t, [COMMA] + FieldsText(fields[1..]), [CLOSE_OBJECT] + rest);
      Regroup([COMMA], FieldsText(fields[1..]), [CLOSE_OBJECT] + rest);
    }
  }

  lemma ShiftRight(k: Units, t: Units, after: Units, rest: Units)
    ensures ([QUOTE] + k + [QUOTE] + [COLON] + t + after) + rest ==
            [QUOTE] + (k + ([QUOTE] + ([COLON] + (t + (after + rest)))))
  {
  }

  lemma {:induction false} ObjectBack(v: Value, rest: Units)
    requires Valid(v) && v.Object? && v.fields != []
    ensures ParseValue(Canonical(v) + rest) == Some(Parsed(Norm(v), rest))
    decreases v, 0
  {
    var fields := Sort(v.fields);
    SortMaps(v.fields);
    SortHolds(v.fields);
    DistinctSort(v.fields);
    var body := FieldsText(fields) + ([CLOSE_OBJECT] + rest);
    FieldsBack(v, [], fields, rest);
    assert [] + NormFields(fields) == NormFields(fields);
    FieldsTextSplits(fields, rest);
    ObjectRule(body, NormFields(fields), rest);
    ObjectText(v, rest);
  }

  /** The remaining sorted fields, after the ones already read. */
  lemma {:induction false} FieldsBack(v: Value, done: seq<Entry<Value>>, fields: seq<Entry<Value>>, rest: Units)
    requires Valid(v) && v.Object? && fields != [] && DistinctKeys(fields)
    requires forall f <- fields :: f in v.fields && forall d <- done :: d.key != f.key
    ensures ParseFields(done, FieldsText(fields) + ([CLOSE_OBJECT] + rest))
            == Some(Parsed(done + NormFields(fields), rest))
    decreases v, 0, |fields|
  {
    var f := fields[0];
    assert f in fields && f in v.fields;
    var tail := FieldTail(fields, rest);
    var text := Canonical(f.value) + tail;
    FieldsTextSplits(fields, rest);
    EscapeBack(f.key, [COLON] + text);
    ValueBack(f.value, tail);
    FieldRule(done, Escape(f.key) + ([QUOTE] + ([COLON] + text)), f.key, text, Norm(f.value), tail);
    PutNew(done, f.key, Norm(f.value));
    NormFieldsSplit(done, fields);
    if |fields| == 1 {
      assert tail[1..] == rest;
    } else {
      assert tail[1..] == FieldsText(fields[1..]) + ([CLOSE_OBJECT] + rest);
      forall g | g in fields[1..]
        ensures g in v.fields && forall d <- done + [Entry(f.key, Norm(f.value))] :: d.key != g.key
      {
        FirstKeyIsAlone(fields, g);
      }
      FieldsBack(v, done + [Entry(f.key, Norm(f.value))], fields[1..], rest);
    }
  }

  lemma NormFieldsSplit(done: seq<Entry<Value>>, fields: seq<Entry<Value>>)
    requires fields != []
    ensures done + NormFields(fields) == done + [Entry(fields[0].key, Norm(fields[0].value))] + NormFields(fields[1..])
    ensures |fields| == 1 ==> done + NormFields(fields) == done + [Entry(fields[0].key, Norm(fields[0].value))]
  {
    var first := [Entry(fields[0].key, Norm(fields[0].value))];
    var others := NormFields(fields[1..]);
    Regroup(done, first, others);
    if |fields| == 1 {
      assert first + others == first;
    }
  }

  lemma ParseBack(v: Value)
    requires Valid(v)
    ensures Parse(Canonical(v)) == Some(Norm(v))
  {
    ValueBack(v, []);
    assert Canonical(v) + [] == Canonical(v);
  }
}
