/**
 * Key-order-independent canonical form of JSON values, as hashed by the receipt hash
 * (src/hands/contract.ts) and by the evidence ledger (src/evidence/ledger.ts).
 *
 * An object is a list of fields in insertion order.  Object keys are ordinary strings:
 * array-index keys, which JavaScript enumerates by number, and `__proto__` are not
 * part of this model.
 */
module CanonicalJson {
  predicate NumberChar(c: char) {
    '0' <= c <= '9' || c == '-' || c == '+' || c == '.' || c == 'e'
  }

  predicate IsNumberText(s: string) {
    s != "" && forall i :: 0 <= i < |s| ==> NumberChar(s[i])
  }

  /** A number as JSON prints it; numbers are equal exactly when their texts are. */
  type NumberText = s: string | IsNumberText(s) witness "0"

  datatype Json =
    | Null
    | Bool(b: bool)
    | Number(text: NumberText)
    | Str(s: string)
    | Arr(items: Items)
    | Obj(fields: Fields)

  datatype Items = NoItems | Item(head: Json, tail: Items)

  datatype Fields = NoFields | Field(key: string, value: Json, rest: Fields)

  // ── Order of keys ─────────────────────────────────────────────────────

  // Keys are ordered by their characters.  The program orders them by UTF-16 code units,
  // which differs only between a character above U+FFFF and one from U+E000 to U+FFFF.

  predicate Less(a: string, b: string)
    decreases |a|
  {
    b != "" && (a == "" || a[0] < b[0] || (a[0] == b[0] && Less(a[1..], b[1..])))
  }

  lemma {:induction false} LessIrreflexive(a: string)
    ensures !Less(a, a)
    decreases |a|
  {
    if a != "" {
      LessIrreflexive(a[1..]);
    }
  }

  lemma {:induction false} LessTransitive(a: string, b: string, c: string)
    requires Less(a, b) && Less(b, c)
    ensures Less(a, c)
    decreases |a|
  {
    if a != "" && a[0] == b[0] && b[0] == c[0] {
      LessTransitive(a[1..], b[1..], c[1..]);
    }
  }

  lemma {:induction false} LessTotal(a: string, b: string)
    ensures a == b || Less(a, b) || Less(b, a)
    decreases |a|
  {
    if a != "" && b != "" && a[0] == b[0] {
      LessTotal(a[1..], b[1..]);
      assert a == [a[0]] + a[1..] && b == [b[0]] + b[1..];
    }
  }

  // ── Objects as finite maps ────────────────────────────────────────────

  function Keys(f: Fields): set<string> {
    match f
    case NoFields => {}
    case Field(key, _, rest) => {key} + Keys(rest)
  }

  function Get(f: Fields, key: string): Json
    requires key in Keys(f)
  {
    if f.key == key then f.value else Get(f.rest, key)
  }

  /** Every object, at every depth, has distinct keys. */
  predicate DistinctKeys(j: Json) {
    match j
    case Arr(items) => DistinctKeysItems(items)
    case Obj(fields) => DistinctKeysFields(fields)
    case _ => true
  }

  predicate DistinctKeysItems(items: Items) {
    match items
    case NoItems => true
    case Item(head, tail) => DistinctKeys(head) && DistinctKeysItems(tail)
  }

  predicate DistinctKeysFields(f: Fields) {
    match f
    case NoFields => true
    case Field(key, value, rest) => key !in Keys(rest) && DistinctKeys(value) && DistinctKeysFields(rest)
  }

  // ── Canonical form ────────────────────────────────────────────────────

  /** Insert by key; an equal key is overwritten, as assignment to an object would. */
  function Insert(key: string, value: Json, sorted: Fields): Fields {
    match sorted
    case NoFields => Field(key, value, NoFields)
    case Field(k, v, rest) =>
      if k == key then Field(key, value, rest)
      else if Less(key, k) then Field(key, value, sorted)
      else Field(k, v, Insert(key, value, rest))
  }

  function Canonicalize(j: Json): Json {
    match j
    case Arr(items) => Arr(CanonicalizeItems(items))
    case Obj(fields) => Obj(SortFields(fields))
    case _ => j
  }

  function CanonicalizeItems(items: Items): Items {
    match items
    case NoItems => NoItems
    case Item(head, tail) => Item(Canonicalize(head), CanonicalizeItems(tail))
  }

  function SortFields(f: Fields): Fields {
    match f
    case NoFields => NoFields
    case Field(key, value, rest) => Insert(key, Canonicalize(value), SortFields(rest))
  }

  // ── Equality up to key order at every depth ───────────────────────────

  ghost function Size(j: Json): nat {
    match j
    case Arr(items) => 1 + SizeItems(items)
    case Obj(fields) => 1 + SizeFields(fields)
    case _ => 1
  }

  ghost function SizeItems(items: Items): nat {
    match items
    case NoItems => 0
    case Item(head, tail) => 1 + Size(head) + SizeItems(tail)
  }

  ghost function SizeFields(f: Fields): nat {
    match f
    case NoFields => 0
    case Field(_, value, rest) => 1 + Size(value) + SizeFields(rest)
  }

  lemma {:induction false} GetIsSmaller(f: Fields, key: string)
    requires key in Keys(f)
    ensures Size(Get(f, key)) < SizeFields(f)
  {
    if f.key != key {
      GetIsSmaller(f.rest, key);
    }
  }

  ghost predicate SameUpToKeyOrder(a: Json, b: Json)
    decreases Size(a)
  {
    match a
    case Arr(items) => b.Arr? && SameItems(items, b.items)
    case Obj(fields) =>
      b.Obj? && Keys(fields) == Keys(b.fields)
      && forall key :: key in Keys(fields) ==>
           (GetIsSmaller(fields, key); SameUpToKeyOrder(Get(fields, key), Get(b.fields, key)))
    case _ => a == b
  }

  ghost predicate SameItems(a: Items, b: Items)
    decreases SizeItems(a)
  {
    match a
    case NoItems => b.NoItems?
    case Item(head, tail) => b.Item? && SameUpToKeyOrder(head, b.head) && SameItems(tail, b.tail)
  }

  // ── Sorting is a function of the map ──────────────────────────────────

  predicate Sorted(f: Fields) {
    match f
    case NoFields => true
    case Field(key, _, rest) => Sorted(rest) && (rest.Field? ==> Less(key, rest.key))
  }

  lemma {:induction false} SortedHeadIsLeast(f: Fields, key: string)
    requires f.Field? && Sorted(f) && key in Keys(f.rest)
    ensures Less(f.key, key)
  {
    if key != f.rest.key {
      SortedHeadIsLeast(f.rest, key);
      LessTransitive(f.key, f.rest.key, key);
    }
  }

  lemma {:induction false} InsertKeepsSorted(key: string, value: Json, f: Fields)
    requires Sorted(f)
    ensures Sorted(Insert(key, value, f)) && Keys(Insert(key, value, f)) == Keys(f) + {key}
    ensures Insert(key, value, f).key == key || (f.Field? && Insert(key, value, f).key == f.key)
  {
    if f.Field? && f.key != key && !Less(key, f.key) {
      LessTotal(key, f.key);
      InsertKeepsSorted(key, value, f.rest);
    }
  }

  lemma {:induction false} InsertGets(key: string, value: Json, f: Fields, k: string)
    requires Sorted(f) && k in Keys(f) + {key}
    ensures k in Keys(Insert(key, value, f))
    ensures Get(Insert(key, value, f), k) == if k == key then value else Get(f, k)
  {
    InsertKeepsSorted(key, value, f);
    if f.Field? && f.key != key && !Less(key, f.key) && k != f.key {
      InsertGets(key, value, f.rest, k);
    }
  }

  lemma {:induction false} SortFieldsIsSorted(f: Fields)
    ensures Sorted(SortFields(f)) && Keys(SortFields(f)) == Keys(f)
  {
    if f.Field? {
      SortFieldsIsSorted(f.rest);
      InsertKeepsSorted(f.key, Canonicalize(f.value), SortFields(f.rest));
    }
  }

  /** Some key is before another exactly if it is a proper prefix of it, or smaller at the first difference. */
  lemma {:induction false} LessIff(a: string, b: string)
    ensures Less(a, b) <==>
      || (|a| < |b| && a == b[..|a|])
      || exists i :: 0 <= i < |a| && i < |b| && a[..i] == b[..i] && a[i] < b[i]
  {
    if a != "" && b != "" && a[0] == b[0] {
      LessIff(a[1..], b[1..]);
      if i :| 0 <= i < |a| && i < |b| && a[..i] == b[..i] && a[i] < b[i] {
        assert i > 0 && a[1..][i - 1] < b[1..][i - 1];
        assert a[1..][..i - 1] == a[..i][1..] && b[1..][..i - 1] == b[..i][1..];
      }
      if i :| 0 <= i < |a[1..]| && i < |b[1..]| && a[1..][..i] == b[1..][..i] && a[1..][i] < b[1..][i] {
        assert a[..i + 1] == [a[0]] + a[1..][..i] && b[..i + 1] == [b[0]] + b[1..][..i];
        assert a[i + 1] < b[i + 1];
      }
      assert a == [a[0]] + a[1..] && b == [b[0]] + b[1..];
    } else if a != "" && b != "" && a[0] < b[0] {
      assert a[..0] == b[..0];
    } else if a != "" && b != "" {
      assert forall i :: 0 < i <= |a| && i <= |b| ==> a[..i][0] == a[0] && b[..i][0] == b[0];
    }
  }

  /** In a canonical object each key comes before the next. */
  lemma CanonicalObjectsAreSorted(fields: Fields)
    ensures var canonical := Canonicalize(Obj(fields));
      canonical.Obj? && Sorted(canonical.fields) && Keys(canonical.fields) == Keys(fields)
  {
    SortFieldsIsSorted(fields);
  }

  lemma {:induction false} SortFieldsGets(f: Fields, key: string)
    requires key in Keys(f) && DistinctKeysFields(f)
    ensures key in Keys(SortFields(f)) && Get(SortFields(f), key) == Canonicalize(Get(f, key))
  {
    SortFieldsIsSorted(f);
    SortFieldsIsSorted(f.rest);
    InsertGets(f.key, Canonicalize(f.value), SortFields(f.rest), key);
    if key != f.key {
      SortFieldsGets(f.rest, key);
    }
  }

  /** Sorted fields are determined by what they map. */
  lemma {:induction false} SortedIsUnique(f: Fields, g: Fields)
    requires Sorted(f) && Sorted(g) && Keys(f) == Keys(g)
    requires forall key :: key in Keys(f) ==> Get(f, key) == Get(g, key)
    ensures f == g
  {
    if f.Field? {
      assert f.key in Keys(g);
      assert g.Field? && g.key in Keys(f);
      if f.key != g.key {
        SortedHeadIsLeast(f, g.key);
        SortedHeadIsLeast(g, f.key);
        LessTransitive(f.key, g.key, f.key);
        LessIrreflexive(f.key);
        assert false;
      }
      if f.key in Keys(f.rest) {
        SortedHeadIsLeast(f, f.key);
        LessIrreflexive(f.key);
        assert false;
      }
      if f.key in Keys(g.rest) {
        SortedHeadIsLeast(g, f.key);
        LessIrreflexive(f.key);
        assert false;
      }
      assert Keys(f.rest) == Keys(f) - {f.key} && Keys(g.rest) == Keys(g) - {f.key};
      forall key | key in Keys(f.rest) ensures Get(f.rest, key) == Get(g.rest, key) {
        assert Get(f, key) == Get(g, key);
      }
      SortedIsUnique(f.rest, g.rest);
      assert Get(f, f.key) == Get(g, f.key);
    }
  }

  lemma {:induction false} GetKeepsDistinct(f: Fields, key: string)
    requires key in Keys(f) && DistinctKeysFields(f)
    ensures DistinctKeys(Get(f, key))
  {
    if f.key != key {
      GetKeepsDistinct(f.rest, key);
    }
  }

  // ── Canonicalisation is exact ─────────────────────────────────────────

  /** Two values have the same canonical form exactly when they are equal up to key order at every depth. */
  lemma {:induction false} CanonicalIffSame(a: Json, b: Json)
    requires DistinctKeys(a) && DistinctKeys(b)
    ensures Canonicalize(a) == Canonicalize(b) <==> SameUpToKeyOrder(a, b)
    decreases Size(a)
  {
    match a
    case Arr(items) =>
      if b.Arr? {
        CanonicalIffSameItems(items, b.items);
      }
    case Obj(f) =>
      if b.Obj? {
        var g := b.fields;
        SortFieldsIsSorted(f);
        SortFieldsIsSorted(g);
        if Keys(f) == Keys(g) {
          forall key | key in Keys(f)
            ensures SameUpToKeyOrder(Get(f, key), Get(g, key)) <==> Get(SortFields(f), key) == Get(SortFields(g), key)
          {
            SortFieldsGets(f, key);
            SortFieldsGets(g, key);
            GetKeepsDistinct(f, key);
            GetKeepsDistinct(g, key);
            GetIsSmaller(f, key);
            CanonicalIffSame(Get(f, key), Get(g, key));
          }
          if SameUpToKeyOrder(a, b) {
            SortedIsUnique(SortFields(f), SortFields(g));
          }
        }
      }
    case _ =>
  }

  lemma {:induction false} CanonicalIffSameItems(a: Items, b: Items)
    requires DistinctKeysItems(a) && DistinctKeysItems(b)
    ensures CanonicalizeItems(a) == CanonicalizeItems(b) <==> SameItems(a, b)
    decreases SizeItems(a)
  {
    if a.Item? && b.Item? {
      CanonicalIffSame(a.head, b.head);
      CanonicalIffSameItems(a.tail, b.tail);
    }
  }

  lemma {:induction false} InsertKeepsDistinct(key: string, value: Json, f: Fields)
    requires DistinctKeysFields(f) && DistinctKeys(value) && Sorted(f)
    ensures DistinctKeysFields(Insert(key, value, f))
  {
    if f.Field? {
      InsertKeepsSorted(key, value, f.rest);
      if f.key != key && Less(key, f.key) && key in Keys(f) {
        SortedHeadIsLeast(f, key);
        LessTransitive(key, f.key, key);
        LessIrreflexive(key);
        assert false;
      }
      InsertKeepsDistinct(key, value, f.rest);
    }
  }

  /** A canonical form is a value of the same kind, equal to the original up to key order. */
  lemma {:induction false} CanonicalFormIsSame(j: Json)
    requires DistinctKeys(j)
    ensures DistinctKeys(Canonicalize(j)) && SameUpToKeyOrder(j, Canonicalize(j))
    decreases Size(j)
  {
    match j
    case Arr(items) => CanonicalItemsAreSame(items);
    case Obj(f) =>
      SortFieldsKeepsDistinct(f);
      SortFieldsIsSorted(f);
      forall key | key in Keys(f) ensures SameUpToKeyOrder(Get(f, key), Get(SortFields(f), key)) {
        SortFieldsGets(f, key);
        GetKeepsDistinct(f, key);
        GetIsSmaller(f, key);
        CanonicalFormIsSame(Get(f, key));
      }
    case _ =>
  }

  lemma {:induction false} CanonicalItemsAreSame(items: Items)
    requires DistinctKeysItems(items)
    ensures DistinctKeysItems(CanonicalizeItems(items)) && SameItems(items, CanonicalizeItems(items))
    decreases SizeItems(items)
  {
    if items.Item? {
      CanonicalFormIsSame(items.head);
      CanonicalItemsAreSame(items.tail);
    }
  }

  lemma {:induction false} SortFieldsKeepsDistinct(f: Fields)
    requires DistinctKeysFields(f)
    ensures DistinctKeysFields(SortFields(f))
    decreases SizeFields(f)
  {
    if f.Field? {
      CanonicalFormIsSame(f.value);
      SortFieldsKeepsDistinct(f.rest);
      SortFieldsIsSorted(f.rest);
      InsertKeepsDistinct(f.key, Canonicalize(f.value), SortFields(f.rest));
    }
  }

  /** Canonicalising twice changes nothing. */
  lemma CanonicalizeIsIdempotent(j: Json)
    requires DistinctKeys(j)
    ensures Canonicalize(Canonicalize(j)) == Canonicalize(j)
  {
    CanonicalFormIsSame(j);
    CanonicalIffSame(j, Canonicalize(j));
  }

  // ── JSON text ─────────────────────────────────────────────────────────

  function HexDigit(n: nat): char
    requires n < 16
  {
    "0123456789abcdef"[n]
  }

  /** One character inside a quoted string. */
  function Escape(c: char): string {
    if c == '\"' || c == '\\' then ['\\', c]
    else if c == '\n' then "\\n"
    else if c == '\r' then "\\r"
    else if c == '\t' then "\\t"
    else if c as int == 8 then "\\b"
    else if c as int == 12 then "\\f"
    else if c < ' ' then "\\u00" + [HexDigit(c as int / 16), HexDigit(c as int % 16)]
    else [c]
  }

  /** The rest of a quoted string, closing quote included. */
  function QuoteRest(s: string): string {
    if s == "" then "\"" else Escape(s[0]) + QuoteRest(s[1..])
  }

  function Quote(s: string): string {
    "\"" + QuoteRest(s)
  }

  function Stringify(j: Json): string {
    match j
    case Null => "null"
    case Bool(b) => if b then "true" else "false"
    case Number(text) => text
    case Str(s) => Quote(s)
    case Arr(NoItems) => "[]"
    case Arr(Item(head, tail)) => "[" + (Stringify(head) + ItemsRest(tail))
    case Obj(NoFields) => "{}"
    case Obj(fields) => "{" + FieldsText(fields)
  }

  function ItemsRest(items: Items): string {
    match items
    case NoItems => "]"
    case Item(head, tail) => "," + (Stringify(head) + ItemsRest(tail))
  }

  function FieldsText(f: Fields): string
    requires f.Field?
    decreases f, 0
  {
    Quote(f.key) + (":" + (Stringify(f.value) + FieldsRest(f.rest)))
  }

  function FieldsRest(f: Fields): string
    decreases f, 1
  {
    if f.NoFields? then "}" else "," + FieldsText(f)
  }

  lemma Cancel(p: string, u: string, v: string)
    requires p + u == p + v
    ensures u == v
  {
    assert u == (p + u)[|p|..] && v == (p + v)[|p|..];
  }

  predicate Escaped(c: char) {
    c == '\"' || c == '\\' || c < ' '
  }

  /** The character after the backslash. */
  function EscapeMark(c: char): char
    requires Escaped(c)
  {
    if c == '\"' || c == '\\' then c
    else if c == '\n' then 'n'
    else if c == '\r' then 'r'
    else if c == '\t' then 't'
    else if c as int == 8 then 'b'
    else if c as int == 12 then 'f'
    else 'u'
  }

  lemma EscapeShape(c: char)
    ensures !Escaped(c) ==> Escape(c) == [c]
    ensures Escaped(c) ==> |Escape(c)| >= 2 && Escape(c)[0] == '\\' && Escape(c)[1] == EscapeMark(c)
    ensures Escaped(c) ==> |Escape(c)| == if EscapeMark(c) == 'u' then 6 else 2
    ensures Escaped(c) && EscapeMark(c) == 'u' ==>
              Escape(c)[4] == HexDigit(c as int / 16) && Escape(c)[5] == HexDigit(c as int % 16)
  {
  }

  lemma HexDigitsDiffer(m: nat, n: nat)
    requires m < 16 && n < 16
    ensures HexDigit(m) == HexDigit(n) <==> m == n
  {
  }

  lemma ControlFromHex(c: char, d: char)
    requires c < ' ' && d < ' '
    requires HexDigit(c as int / 16) == HexDigit(d as int / 16) && HexDigit(c as int % 16) == HexDigit(d as int % 16)
    ensures c == d
  {
    HexDigitsDiffer(c as int / 16, d as int / 16);
    HexDigitsDiffer(c as int % 16, d as int % 16);
    assert c as int == 16 * (c as int / 16) + c as int % 16;
    assert d as int == 16 * (d as int / 16) + d as int % 16;
  }

  /** Where one escaped character ends is fixed by the text. */
  lemma EscapeIsPrefixFree(c: char, d: char, u: string, v: string)
    requires Escape(c) + u == Escape(d) + v
    ensures c == d && u == v
  {
    EscapeShape(c);
    EscapeShape(d);
    var s := Escape(c) + u;
    assert s == Escape(d) + v;
    assert s[0] == Escape(c)[0] == Escape(d)[0];
    if Escaped(c) && Escaped(d) {
      assert s[1] == Escape(c)[1] == Escape(d)[1];
      if EscapeMark(c) == 'u' {
        assert s[4] == Escape(c)[4] == Escape(d)[4] && s[5] == Escape(c)[5] == Escape(d)[5];
        ControlFromHex(c, d);
      }
    }
    Cancel(Escape(c), u, v);
  }

  lemma Regroup(p: string, q: string, u: string)
    ensures (p + q) + u == p + (q + u)
  {
  }

  lemma QuoteStarts(s: string, u: string)
    ensures QuoteRest(s) + u != "" && ((QuoteRest(s) + u)[0] == '\"' <==> s == "")
    ensures s != "" ==> QuoteRest(s) + u == Escape(s[0]) + (QuoteRest(s[1..]) + u)
  {
    if s == "" {
      assert QuoteRest(s) == "\"";
    } else {
      var e := Escape(s[0]);
      EscapeShape(s[0]);
      Regroup(e, QuoteRest(s[1..]), u);
      assert (QuoteRest(s) + u)[0] == e[0];
    }
  }

  lemma {:induction false} QuoteIsPrefixFree(s: string, t: string, u: string, v: string)
    requires QuoteRest(s) + u == QuoteRest(t) + v
    ensures s == t && u == v
    decreases |s|
  {
    QuoteStarts(s, u);
    QuoteStarts(t, v);
    if s == "" {
      Cancel("\"", u, v);
    } else {
      EscapeIsPrefixFree(s[0], t[0], QuoteRest(s[1..]) + u, QuoteRest(t[1..]) + v);
      QuoteIsPrefixFree(s[1..], t[1..], u, v);
      assert s == [s[0]] + s[1..] && t == [t[0]] + t[1..];
    }
  }

  /** What may follow a value: the end, a comma, or a closing bracket. */
  predicate Delimited(u: string) {
    u == "" || u[0] == ',' || u[0] == ']' || u[0] == '}'
  }

  lemma NumberTextIsMaximal(s: NumberText, t: NumberText, u: string, v: string)
    requires Delimited(u) && s + u == t + v
    ensures |t| <= |s|
  {
    var text := s + u;
    assert forall i :: 0 <= i < |t| ==> text[i] == t[i] && NumberChar(text[i]);
    assert |s| < |text| ==> text[|s|] == u[0] && !NumberChar(text[|s|]);
  }

  lemma NumberTextEnds(s: NumberText, t: NumberText, u: string, v: string)
    requires Delimited(u) && Delimited(v) && s + u == t + v
    ensures s == t && u == v
  {
    NumberTextIsMaximal(s, t, u, v);
    NumberTextIsMaximal(t, s, v, u);
    assert s == (s + u)[..|s|] && t == (t + v)[..|t|];
    Cancel(s, u, v);
  }

  /** The first character tells the kinds of values apart. */
  function Kind(j: Json): nat {
    match j
    case Null => 0
    case Bool(b) => if b then 1 else 2
    case Number(_) => 3
    case Str(_) => 4
    case Arr(_) => 5
    case Obj(_) => 6
  }

  function KindOf(c: char): nat {
    if c == 'n' then 0 else if c == 't' then 1 else if c == 'f' then 2
    else if c == '\"' then 4 else if c == '[' then 5 else if c == '{' then 6 else 3
  }

  lemma StartsWithItsKind(j: Json, u: string)
    ensures Stringify(j) + u != ""
    ensures KindOf((Stringify(j) + u)[0]) == Kind(j) && (Stringify(j) + u)[0] != ']'
  {
    if j.Number? {
      assert NumberChar(j.text[0]);
    }
  }

  lemma {:induction false} StringifyIsPrefixFree(a: Json, b: Json, u: string, v: string)
    requires Delimited(u) && Delimited(v) && Stringify(a) + u == Stringify(b) + v
    ensures a == b && u == v
    decreases a, 0
  {
    StartsWithItsKind(a, u);
    StartsWithItsKind(b, v);
    assert Kind(a) == Kind(b);
    match a
    case Null => Cancel("null", u, v);
    case Bool(t) => BoolsArePrefixFree(t, b.b, u, v);
    case Number(text) => NumberTextEnds(text, b.text, u, v);
    case Str(s) => StringsArePrefixFree(s, b.s, u, v);
    case Arr(items) => ArraysArePrefixFree(items, b.items, u, v);
    case Obj(fields) => ObjectsArePrefixFree(fields, b.fields, u, v);
  }

  lemma StringsArePrefixFree(s: string, t: string, u: string, v: string)
    requires Quote(s) + u == Quote(t) + v
    ensures s == t && u == v
  {
    Regroup("\"", QuoteRest(s), u);
    Regroup("\"", QuoteRest(t), v);
    Cancel("\"", QuoteRest(s) + u, QuoteRest(t) + v);
    QuoteIsPrefixFree(s, t, u, v);
  }

  lemma BoolsArePrefixFree(s: bool, t: bool, u: string, v: string)
    requires Stringify(Bool(s)) + u == Stringify(Bool(t)) + v && s == t
    ensures u == v
  {
    Cancel(Stringify(Bool(s)), u, v);
  }

  /** The text of an array after its opening bracket. */
  function ItemsText(items: Items): string {
    if items.NoItems? then "]" else Stringify(items.head) + ItemsRest(items.tail)
  }

  lemma ItemsStart(items: Items, u: string)
    ensures Stringify(Arr(items)) + u == "[" + (ItemsText(items) + u)
    ensures ItemsText(items) + u != "" && ((ItemsText(items) + u)[0] == ']' <==> items.NoItems?)
    ensures items.Item? ==> ItemsText(items) + u == Stringify(items.head) + (ItemsRest(items.tail) + u)
  {
    if items.Item? {
      StartsWithItsKind(items.head, ItemsRest(items.tail) + u);
      assert ItemsText(items) + u == Stringify(items.head) + (ItemsRest(items.tail) + u);
    }
  }

  lemma ItemsRestStart(items: Items, u: string)
    ensures ItemsRest(items) + u != "" && Delimited(ItemsRest(items) + u)
    ensures (ItemsRest(items) + u)[0] == ']' <==> items.NoItems?
    ensures items.Item? ==> ItemsRest(items) + u == "," + (Stringify(items.head) + (ItemsRest(items.tail) + u))
  {
  }

  lemma {:induction false} ArraysArePrefixFree(a: Items, b: Items, u: string, v: string)
    requires Stringify(Arr(a)) + u == Stringify(Arr(b)) + v
    ensures a == b && u == v
    decreases a, 1
  {
    ItemsStart(a, u);
    ItemsStart(b, v);
    Cancel("[", ItemsText(a) + u, ItemsText(b) + v);
    if a.NoItems? {
      Cancel("]", u, v);
    } else {
      var x, y := ItemsRest(a.tail) + u, ItemsRest(b.tail) + v;
      ItemsRestStart(a.tail, u);
      ItemsRestStart(b.tail, v);
      StringifyIsPrefixFree(a.head, b.head, x, y);
      ItemsArePrefixFree(a.tail, b.tail, u, v);
    }
  }

  lemma {:induction false} ItemsArePrefixFree(a: Items, b: Items, u: string, v: string)
    requires ItemsRest(a) + u == ItemsRest(b) + v
    ensures a == b && u == v
    decreases a, 1
  {
    ItemsRestStart(a, u);
    ItemsRestStart(b, v);
    if a.NoItems? {
      Cancel("]", u, v);
    } else {
      var x, y := ItemsRest(a.tail) + u, ItemsRest(b.tail) + v;
      ItemsRestStart(a.tail, u);
      ItemsRestStart(b.tail, v);
      Cancel(",", Stringify(a.head) + x, Stringify(b.head) + y);
      StringifyIsPrefixFree(a.head, b.head, x, y);
      ItemsArePrefixFree(a.tail, b.tail, u, v);
    }
  }

  lemma ObjectStart(f: Fields, u: string)
    ensures |Stringify(Obj(f)) + u| >= 2 && ((Stringify(Obj(f)) + u)[1] == '}' <==> f.NoFields?)
    ensures f.Field? ==> Stringify(Obj(f)) + u == "{" + (FieldsText(f) + u)
  {
  }

  lemma FieldsStart(f: Fields, u: string)
    requires f.Field?
    ensures FieldsText(f) + u ==
            "\"" + (QuoteRest(f.key) + (":" + (Stringify(f.value) + (FieldsRest(f.rest) + u))))
  {
    var tail := Stringify(f.value) + FieldsRest(f.rest);
    assert tail + u == Stringify(f.value) + (FieldsRest(f.rest) + u);
    assert (":" + tail) + u == ":" + (tail + u);
    assert FieldsText(f) == Quote(f.key) + (":" + tail);
  }

  lemma FieldsRestStart(f: Fields, u: string)
    ensures FieldsRest(f) + u != "" && Delimited(FieldsRest(f) + u)
    ensures (FieldsRest(f) + u)[0] == '}' <==> f.NoFields?
    ensures f.Field? ==> FieldsRest(f) + u == "," + (FieldsText(f) + u)
  {
  }

  lemma {:induction false} ObjectsArePrefixFree(a: Fields, b: Fields, u: string, v: string)
    requires Stringify(Obj(a)) + u == Stringify(Obj(b)) + v
    ensures a == b && u == v
    decreases a, 2
  {
    ObjectStart(a, u);
    ObjectStart(b, v);
    if a.NoFields? {
      Cancel("{}", u, v);
    } else {
      Cancel("{", FieldsText(a) + u, FieldsText(b) + v);
      FieldsArePrefixFree(a, b, u, v);
    }
  }

  lemma {:induction false} FieldsArePrefixFree(a: Fields, b: Fields, u: string, v: string)
    requires a.Field? && b.Field? && FieldsText(a) + u == FieldsText(b) + v
    ensures a == b && u == v
    decreases a, 1
  {
    var x, y := FieldsRest(a.rest) + u, FieldsRest(b.rest) + v;
    FirstFieldsAgree(a, b, u, v);
    FieldsRestStart(a.rest, u);
    FieldsRestStart(b.rest, v);
    StringifyIsPrefixFree(a.value, b.value, x, y);
    if a.rest.NoFields? {
      Cancel("}", u, v);
    } else {
      Cancel(",", FieldsText(a.rest) + u, FieldsText(b.rest) + v);
      FieldsArePrefixFree(a.rest, b.rest, u, v);
    }
  }

  lemma FirstFieldsAgree(a: Fields, b: Fields, u: string, v: string)
    requires a.Field? && b.Field? && FieldsText(a) + u == FieldsText(b) + v
    ensures a.key == b.key
    ensures Stringify(a.value) + (FieldsRest(a.rest) + u) == Stringify(b.value) + (FieldsRest(b.rest) + v)
  {
    FieldsStart(a, u);
    FieldsStart(b, v);
    var p := Stringify(a.value) + (FieldsRest(a.rest) + u);
    var q := Stringify(b.value) + (FieldsRest(b.rest) + v);
    Cancel("\"", QuoteRest(a.key) + (":" + p), QuoteRest(b.key) + (":" + q));
    QuoteIsPrefixFree(a.key, b.key, ":" + p, ":" + q);
    Cancel(":", p, q);
  }

  /** Different values have different texts. */
  lemma StringifyIsInjective(a: Json, b: Json)
    ensures Stringify(a) == Stringify(b) <==> a == b
  {
    if Stringify(a) == Stringify(b) {
      StringifyIsPrefixFree(a, b, "", "");
    }
  }

  // ── Hashing ───────────────────────────────────────────────────────────

  /** No two texts collide. */
  ghost predicate CollisionFree(digest: string -> string) {
    forall s, t :: digest(s) == digest(t) ==> s == t
  }

  /** Such digests exist, so what is proved of them is proved of something. */
  lemma ACollisionFreeDigestExists()
    ensures exists digest: string -> string :: CollisionFree(digest)
  {
    assert CollisionFree((s: string) => s);
  }

  function HashPayload(digest: string -> string, payload: Json): string {
    digest(Stringify(Canonicalize(payload)))
  }

  /** With a collision-free digest, two payloads hash alike exactly when they differ in key order at most. */
  lemma HashIffSame(digest: string -> string, a: Json, b: Json)
    requires CollisionFree(digest) && DistinctKeys(a) && DistinctKeys(b)
    ensures HashPayload(digest, a) == HashPayload(digest, b) <==> SameUpToKeyOrder(a, b)
  {
    StringifyIsInjective(Canonicalize(a), Canonicalize(b));
    CanonicalIffSame(a, b);
  }
}
