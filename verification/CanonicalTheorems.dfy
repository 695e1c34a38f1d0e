/**
 Printing and parsing undo each other, so canonical text is one name for each value: it ignores key order, separates
 different values, and each value has exactly one accepted encoding.
 */
module CanonicalTheorems {
  import opened Primitives
  import opened CanonicalJson
  import opened CanonicalRoundTrip

  // ---------------------------------------------------------------- one text for each value

  lemma {:induction false} DistinctNorm(fields: seq<Entry<Value>>)
    requires DistinctKeys(fields)
    ensures DistinctKeys(NormFields(fields))
  {
    FieldsAt(fields);
  }

  predicate HasPartner(e: Entry<Value>, g: seq<Entry<Value>>) {
    exists j | 0 <= j < |g| :: e.key == g[j].key && Norm(e.value) == Norm(g[j].value)
  }

  /** Two field lists that agree key by key, up to normal forms, have the same normal form. */
  lemma FieldsNormSame(f: seq<Entry<Value>>, g: seq<Entry<Value>>)
    requires DistinctKeys(f) && DistinctKeys(g) && |f| == |g|
    requires forall i | 0 <= i < |f| :: HasPartner(f[i], g)
    ensures Sort(NormFields(f)) == Sort(NormFields(g))
  {
    FieldsAt(f);
    FieldsAt(g);
    forall e | e in NormFields(f) ensures e in NormFields(g) {
      var i :| 0 <= i < |f| && NormFields(f)[i] == e;
      var j :| 0 <= j < |g| && f[i].key == g[j].key && Norm(f[i].value) == Norm(g[j].value);
      assert NormFields(g)[j] == e;
    }
    DistinctNorm(f);
    DistinctNorm(g);
    SortIgnoresOrder(NormFields(f), NormFields(g));
  }

  lemma ItemsNormSame(a: seq<Value>, b: seq<Value>)
    requires |a| == |b| && forall i | 0 <= i < |a| :: Norm(a[i]) == Norm(b[i])
    ensures NormItems(a) == NormItems(b)
  {
    NormItemsAt(a);
    NormItemsAt(b);
  }

  lemma {:induction false} NormSame(v: Value, w: Value)
    requires Valid(v) && Valid(w) && Same(v, w)
    ensures Norm(v) == Norm(w)
    decreases v
  {
    match (v, w)
    case (List(a), List(b)) =>
      forall i | 0 <= i < |a| ensures Norm(a[i]) == Norm(b[i]) {
        NormSame(a[i], b[i]);
      }
      ItemsNormSame(a, b);
    case (Object(f), Object(g)) =>
      forall i | 0 <= i < |f| ensures HasPartner(f[i], g) {
        var j :| 0 <= j < |g| && f[i].key == g[j].key && Same(f[i].value, g[j].value);
        NormSame(f[i].value, g[j].value);
      }
      FieldsNormSame(f, g);
    case _ =>
  }

  lemma {:induction false} SameNorm(v: Value, w: Value)
    requires Norm(v) == Norm(w)
    ensures Same(v, w)
    decreases v
  {
    match (v, w)
    case (List(a), List(b)) =>
      NormItemsAt(a);
      NormItemsAt(b);
      forall i | 0 <= i < |a| ensures Same(a[i], b[i]) {
        assert NormItems(a)[i] == NormItems(b)[i];
        SameNorm(a[i], b[i]);
      }
    case (Object(f), Object(g)) =>
      FieldsAt(f);
      FieldsAt(g);
      SortHolds(NormFields(f));
      SortHolds(NormFields(g));
      forall i | 0 <= i < |f| ensures exists j | 0 <= j < |g| :: f[i].key == g[j].key && Same(f[i].value, g[j].value) {
        var e := NormFields(f)[i];
        assert e in NormFields(f) && e in NormFields(g);
        var j :| 0 <= j < |g| && NormFields(g)[j] == e;
        SameNorm(f[i].value, g[j].value);
      }
    case _ =>
  }

  /** Canonical text depends only on the normal form. */
  lemma {:induction false} CanonicalNorm(v: Value)
    requires Valid(v)
    ensures Canonical(Norm(v)) == Canonical(v)
    decreases v
  {
    match v
    case List(items) =>
      NormItemsAt(items);
      NormItemsAt(NormItems(items));
      CanonicalItemsAt(items);
      CanonicalItemsAt(NormItems(items));
      forall i | 0 <= i < |items| ensures CanonicalItems(NormItems(items))[i] == CanonicalItems(items)[i] {
        CanonicalNorm(items[i]);
      }
      assert CanonicalItems(NormItems(items)) == CanonicalItems(items);
    case Object(fields) =>
      var sorted := Sort(NormFields(fields));
      FieldsAt(fields);
      FieldsAt(NormFields(fields));
      SortMaps(NormFields(fields));
      forall i | 0 <= i < |fields| ensures CanonicalFields(NormFields(fields))[i] == CanonicalFields(fields)[i] {
        CanonicalNorm(fields[i].value);
      }
      assert CanonicalFields(NormFields(fields)) == CanonicalFields(fields);
      DistinctNorm(fields);
      DistinctSort(NormFields(fields));
      SortTwice(NormFields(fields));
      SortMaps(sorted);
    case _ =>
  }

  lemma {:induction false} CanonicalItemsAt(items: seq<Value>)
    ensures |CanonicalItems(items)| == |items|
    ensures forall i | 0 <= i < |items| :: CanonicalItems(items)[i] == Canonical(items[i])
  {
    if items != [] {
      CanonicalItemsAt(items[1..]);
    }
  }

  lemma SortTwice<T(!new)>(entries: seq<Entry<T>>)
    requires DistinctKeys(entries)
    ensures Sort(Sort(entries)) == Sort(entries)
  {
    SortHolds(entries);
    DistinctSort(entries);
    SortIgnoresOrder(Sort(entries), entries);
  }

  /**
   Canonical text is the same for two values exactly when they are the same value up to the order of keys: it is
   injective, and ignores key order.
   */
  lemma CanonicalExactly(v: Value, w: Value)
    requires Valid(v) && Valid(w)
    ensures Canonical(v) == Canonical(w) <==> Same(v, w)
  {
    ParseBack(v);
    ParseBack(w);
    if Canonical(v) == Canonical(w) {
      SameNorm(v, w);
    }
    if Same(v, w) {
      NormSame(v, w);
      CanonicalNorm(v);
      CanonicalNorm(w);
    }
  }

  /** Parsing the canonical text of a value returns that value. */
  lemma RoundTrip(v: Value)
    requires Valid(v)
    ensures Parse(Canonical(v)).Some?
    ensures Same(Parse(Canonical(v)).value, v)
    ensures Canonical(Parse(Canonical(v)).value) == Canonical(v)
  {
    ParseBack(v);
    CanonicalNorm(v);
    NormTwice(v);
    SameNorm(Norm(v), v);
  }

  lemma NormTwice(v: Value)
    requires Valid(v)
    ensures Norm(Norm(v)) == Norm(v) && Valid(Norm(v))
    decreases v
  {
    match v
    case List(items) =>
      NormItemsAt(items);
      NormItemsAt(NormItems(items));
      forall i | 0 <= i < |items|
        ensures NormItems(NormItems(items))[i] == NormItems(items)[i] && Valid(NormItems(items)[i])
      {
        NormTwice(items[i]);
      }
      assert NormItems(NormItems(items)) == NormItems(items);
    case Object(fields) =>
      var f := NormFields(fields);
      FieldsAt(fields);
      FieldsAt(f);
      forall i | 0 <= i < |fields| ensures NormFields(f)[i] == f[i] && Valid(f[i].value) {
        NormTwice(fields[i].value);
      }
      assert NormFields(f) == f;
      DistinctNorm(fields);
      DistinctSort(f);
      SortHolds(f);
      SortMaps(f);
      SortTwice(f);
    case _ =>
  }

  // ---------------------------------------------------------------- accepted encodings

  /** The check of a received manifest: its text is the canonical text of what it parses to. */
  predicate Accepts(raw: Units) {
    match Parse(raw)
    case None => false
    case Some(v) => Canonical(v) == raw
  }

  lemma {:induction false} PutHolds(fields: seq<Entry<Value>>, key: Units, value: Value)
    ensures forall f <- Put(fields, key, value) :: f == Entry(key, value) || f in fields
  {
    if fields != [] && fields[0].key != key {
      PutHolds(fields[1..], key, value);
      assert fields == [fields[0]] + fields[1..];
    }
  }

  lemma {:induction false} PutKeeps(fields: seq<Entry<Value>>, key: Units, value: Value)
    requires DistinctKeys(fields)
    ensures DistinctKeys(Put(fields, key, value))
  {
    if fields != [] && fields[0].key != key {
      PutKeeps(fields[1..], key, value);
      PutHolds(fields[1..], key, value);
      var put := Put(fields[1..], key, value);
      forall i | 0 <= i < |put| ensures put[i].key != fields[0].key {
        assert put[i] in put;
        if put[i] in fields[1..] {
          FirstKeyIsAlone(fields, put[i]);
        }
      }
    }
  }

  /** Whatever the parser returns is a valid value: no repeated key, no unsafe number. */
  lemma {:induction false} ParsedIsValid(s: Units)
    ensures ParseValue(s).Some? ==> Valid(ParseValue(s).value.value)
    decreases |s|, 2
  {
    var t := SkipWhite(s);
    if t != [] && !(NULL_TEXT <= t || TRUE_TEXT <= t || FALSE_TEXT <= t) {
      if t[0] == OPEN_LIST {
        ParsedItemsAreValid(SkipWhite(t[1..]));
      } else if t[0] == OPEN_OBJECT {
        ParsedFieldsAreValid([], SkipWhite(t[1..]));
      }
    }
  }

  lemma {:induction false} ParsedItemsAreValid(s: Units)
    ensures ParseItems(s).Some? ==> forall x <- ParseItems(s).value.value :: Valid(x)
    decreases |s|, 3
  {
    ParsedIsValid(s);
    if ParseValue(s).Some? {
      var t := SkipWhite(ParseValue(s).value.rest);
      if t != [] && t[0] == COMMA {
        ParsedItemsAreValid(t[1..]);
      }
    }
  }

  lemma {:induction false} ParsedFieldsAreValid(fields: seq<Entry<Value>>, s: Units)
    requires DistinctKeys(fields) && forall f <- fields :: Valid(f.value)
    ensures ParseFields(fields, s).Some? ==>
              DistinctKeys(ParseFields(fields, s).value.value)
                  && forall f <- ParseFields(fields, s).value.value :: Valid(f.value)
    decreases |s|, 3
  {
    var t := SkipWhite(s);
    if t != [] && t[0] == QUOTE && ParseText(t[1..]).Some? {
      var key := ParseText(t[1..]).value;
      var u := SkipWhite(key.rest);
      if u != [] && u[0] == COLON && ParseValue(u[1..]).Some? {
        ParsedIsValid(u[1..]);
        var value := ParseValue(u[1..]).value;
        PutKeeps(fields, key.value, value.value);
        PutHolds(fields, key.value, value.value);
        var w := SkipWhite(value.rest);
        if w != [] && w[0] == COMMA {
          ParsedFieldsAreValid(Put(fields, key.value, value.value), w[1..]);
        }
      }
    }
  }

  /** Each value has exactly one accepted encoding. */
  lemma OneAcceptedEncoding(v: Value, raw: Units)
    requires Valid(v)
    ensures Accepts(raw) && Same(Parse(raw).value, v) <==> raw == Canonical(v)
  {
    RoundTrip(v);
    if Accepts(raw) {
      ParsedIsValid(raw);
      CanonicalExactly(Parse(raw).value, v);
    }
  }

  // ---------------------------------------------------------------- comparing results

  /** A signed result: the manifest's text, and the digest reported for it. Digests are taken as injective. */
  datatype SignedResult = SignedResult(encoded: Units, manifestDigest: Units)

  datatype Comparison = Duplicate | DifferentOperation | Conflicting

  const OPERATION_ID: Units := [0x6F, 0x70, 0x65, 0x72, 0x61, 0x74, 0x69, 0x6F, 0x6E, 0x49, 0x64]

  function Lookup(fields: seq<Entry<Value>>, key: Units): Option<Value> {
    if fields == [] then None
    else if fields[0].key == key then Some(fields[0].value)
    else Lookup(fields[1..], key)
  }

  function OperationOf(manifest: Value): Option<Value> {
    if manifest.Object? then Lookup(manifest.fields, OPERATION_ID) else None
  }

  /** What verification of a result establishes about its encoding. */
  predicate Verified(r: SignedResult) {
    Accepts(r.encoded) && r.manifestDigest == Canonical(Parse(r.encoded).value)
  }

  function Compare(previous: SignedResult, next: SignedResult): Comparison
    requires Parse(previous.encoded).Some? && Parse(next.encoded).Some?
  {
    if OperationOf(Parse(previous.encoded).value) != OperationOf(Parse(next.encoded).value) then DifferentOperation
    else if previous.manifestDigest != next.manifestDigest then Conflicting
    else Duplicate
  }

  /**
   Between verified results, a duplicate is a repeated encoding; and a conflict is two encodings of one operation.
   Results are duplicates exactly when their manifests are the same up to key order.
   */
  lemma CompareExactly(previous: SignedResult, next: SignedResult)
    requires Verified(previous) && Verified(next)
    ensures var a, b := Parse(previous.encoded).value, Parse(next.encoded).value;
            && (Compare(previous, next) == Duplicate <==> previous.encoded == next.encoded)
            && (Compare(previous, next) == Duplicate <==> Same(a, b))
            && (Compare(previous, next) == Conflicting <==> OperationOf(a) == OperationOf(b) && !Same(a, b))
  {
    ParsedIsValid(previous.encoded);
    ParsedIsValid(next.encoded);
    CanonicalExactly(Parse(previous.encoded).value, Parse(next.encoded).value);
  }

  // ---------------------------------------------------------------- surviving UTF-8

  /** Surrogates occur only in pairs, so encoding as UTF-8 and decoding gives the text back. */
  predicate Paired(s: Units) {
    s == [] ||
    if Lead(s[0]) then |s| >= 2 && Trail(s[1]) && Paired(s[2..])
    else !Trail(s[0]) && Paired(s[1..])
  }

  lemma {:induction false} PairedAppends(a: Units, b: Units)
    requires Paired(a) && Paired(b)
    ensures Paired(a + b)
  {
    if a == [] {
      assert a + b == b;
    } else if Lead(a[0]) {
      assert (a + b)[2..] == a[2..] + b;
      PairedAppends(a[2..], b);
    } else {
      assert (a + b)[1..] == a[1..] + b;
      PairedAppends(a[1..], b);
    }
  }

  lemma {:induction false} PlainIsPaired(s: Units)
    requires forall i | 0 <= i < |s| :: s[i] < 0xD800
    ensures Paired(s)
  {
    if s != [] {
      PlainIsPaired(s[1..]);
    }
  }

  lemma {:induction false} EscapeIsPaired(s: Units)
    ensures Paired(Escape(s))
  {
    if s != [] {
      EscapeIsPaired(s[Chunk(s)..]);
      if Chunk(s) == 2 {
        assert s[..2][2..] == [];
      } else if ShortEscape(s[0]).Some? || s[0] < 0x20 || Lead(s[0]) || Trail(s[0]) {
        PlainIsPaired(ChunkText(s));
      } else {
        assert [s[0]][1..] == [];
      }
      PairedAppends(ChunkText(s), Escape(s[Chunk(s)..]));
    }
  }

  lemma QuotedIsPaired(s: Units)
    ensures Paired(Quoted(s))
  {
    EscapeIsPaired(s);
    PlainIsPaired([QUOTE]);
    PairedAppends([QUOTE], Escape(s));
    PairedAppends([QUOTE] + Escape(s), [QUOTE]);
  }

  lemma {:induction false} JoinedIsPaired(parts: seq<Units>)
    requires forall p <- parts :: Paired(p)
    ensures Paired(Joined(parts))
  {
    if |parts| > 1 {
      JoinedIsPaired(parts[1..]);
      PlainIsPaired([COMMA]);
      PairedAppends(parts[0], [COMMA]);
      PairedAppends(parts[0] + [COMMA], Joined(parts[1..]));
    }
  }

  lemma {:induction false} MembersArePaired(entries: seq<Entry<Units>>)
    requires forall e <- entries :: Paired(e.value)
    ensures forall p <- Members(entries) :: Paired(p)
  {
    if entries != [] {
      MembersArePaired(entries[1..]);
      QuotedIsPaired(entries[0].key);
      PlainIsPaired([COLON]);
      PairedAppends(Quoted(entries[0].key), [COLON]);
      assert entries[0] in entries;
      PairedAppends(Quoted(entries[0].key) + [COLON], entries[0].value);
    }
  }

  lemma DecimalIsPlain(n: int)
    ensures forall i | 0 <= i < |Decimal(n)| :: Decimal(n)[i] < 0xD800
  {
    var digits := if n < 0 then Digits(-n) else Digits(n);
    DigitsShape(if n < 0 then -n else n);
    forall i | 0 <= i < |digits| ensures digits[i] < 0xD800 {
      assert digits[i] in digits;
    }
  }

  /** Canonical text never holds a lone surrogate, whatever strings the value holds. */
  lemma {:induction false} CanonicalIsPaired(v: Value)
    ensures Paired(Canonical(v))
  {
    match v
    case Null => PlainIsPaired(NULL_TEXT);
    case Boolean(b) =>
      PlainIsPaired(TRUE_TEXT);
      PlainIsPaired(FALSE_TEXT);
    case Number(n) =>
      DecimalIsPlain(n);
      PlainIsPaired(Decimal(n));
    case Text(s) => QuotedIsPaired(s);
    case List(items) =>
      CanonicalItemsAt(items);
      forall p | p in CanonicalItems(items) ensures Paired(p) {
        var i :| 0 <= i < |items| && CanonicalItems(items)[i] == p;
        CanonicalIsPaired(items[i]);
      }
      JoinedIsPaired(CanonicalItems(items));
      BracketedIsPaired(OPEN_LIST, Joined(CanonicalItems(items)), CLOSE_LIST);
    case Object(fields) =>
      FieldsAt(fields);
      SortHolds(CanonicalFields(fields));
      forall e | e in Sort(CanonicalFields(fields)) ensures Paired(e.value) {
        var i :| 0 <= i < |fields| && CanonicalFields(fields)[i] == e;
        CanonicalIsPaired(fields[i].value);
      }
      MembersArePaired(Sort(CanonicalFields(fields)));
      JoinedIsPaired(Members(Sort(CanonicalFields(fields))));
      BracketedIsPaired(OPEN_OBJECT, Joined(Members(Sort(CanonicalFields(fields)))), CLOSE_OBJECT);
  }

  lemma BracketedIsPaired(open: Unit, body: Units, close: Unit)
    requires open < 0xD800 && close < 0xD800 && Paired(body)
    ensures Paired([open] + body + [close])
  {
    PlainIsPaired([open]);
    PlainIsPaired([close]);
    PairedAppends([open], body);
    PairedAppends([open] + body, [close]);
  }
}
