/**
 * The texts that are hashed are JSON texts (RFC 8259): strings read back by its escapes
 * (section 7), and atoms, arrays and objects in its punctuation (sections 2 to 5), with the
 * keys of objects in order (src/hands/contract.ts:135-157, src/evidence/ledger.ts:19-34).
 */
module JsonTexts {
  import opened Common
  import opened CanonicalJson
  import opened EvidenceHash
  import opened EvidenceLedger

  // ── Strings ───────────────────────────────────────────────────────────

  /** The digit a hexadecimal character stands for. */
  function HexValue(c: char): Option<nat> {
    if '0' <= c <= '9' then Some(c as int - '0' as int)
    else if 'a' <= c <= 'f' then Some(10 + (c as int - 'a' as int))
    else if 'A' <= c <= 'F' then Some(10 + (c as int - 'A' as int))
    else None
  }

  /** What a two-character escape stands for. */
  function EscapedBy(mark: char): Option<char> {
    match mark
    case '\"' => Some('\"')
    case '\\' => Some('\\')
    case '/' => Some('/')
    case 'b' => Some(8 as char)
    case 'f' => Some(12 as char)
    case 'n' => Some(10 as char)
    case 'r' => Some(13 as char)
    case 't' => Some(9 as char)
    case _ => None
  }

  /** The ASCII character of "u00XY"; others are not needed here. */
  function UnicodeEscaped(t: string): Option<char> {
    if |t| < 5 || t[1] != '0' || t[2] != '0' || HexValue(t[3]).None? || HexValue(t[4]).None? then None
    else
      var code := 16 * HexValue(t[3]).value + HexValue(t[4]).value;
      if code < 128 then Some(code as char) else None
  }

  datatype Reading = Reading(content: string, rest: string)

  function Prepend(c: char, r: Option<Reading>): Option<Reading> {
    if r.Some? then Some(Reading([c] + r.value.content, r.value.rest)) else None
  }

  /** Reading a string up to its closing quote; a control character must be escaped. */
  function ReadString(t: string): Option<Reading>
    decreases |t|
  {
    if t == "" || t[0] < ' ' then None
    else if t[0] == '\"' then Some(Reading("", t[1..]))
    else if t[0] != '\\' then Prepend(t[0], ReadString(t[1..]))
    else if |t| < 2 then None
    else if EscapedBy(t[1]).Some? then Prepend(EscapedBy(t[1]).value, ReadString(t[2..]))
    else if t[1] == 'u' && UnicodeEscaped(t[1..]).Some? then
      Prepend(UnicodeEscaped(t[1..]).value, ReadString(t[6..]))
    else None
  }

  lemma HexDigitsAreRead(n: nat)
    requires n < 16
    ensures HexValue(HexDigit(n)) == Some(n)
  {}

  lemma ControlEscapesAreRead(c: char, rest: string)
    requires c < ' ' && |Escape(c)| == 6
    ensures ReadString(Escape(c) + rest) == Prepend(c, ReadString(rest))
  {
    var t := Escape(c) + rest;
    HexDigitsAreRead(c as int / 16);
    HexDigitsAreRead(c as int % 16);
    assert Escape(c) == "\\u00" + [HexDigit(c as int / 16), HexDigit(c as int % 16)];
    assert t[1..][3] == HexDigit(c as int / 16) && t[1..][4] == HexDigit(c as int % 16);
    assert t[6..] == rest;
  }

  lemma EscapesAreRead(c: char, rest: string)
    ensures ReadString(Escape(c) + rest) == Prepend(c, ReadString(rest))
  {
    var t := Escape(c) + rest;
    if c < ' ' && |Escape(c)| == 6 {
      ControlEscapesAreRead(c, rest);
    } else if |Escape(c)| == 2 {
      assert t[2..] == rest;
    } else {
      assert Escape(c) == [c] && t[1..] == rest;
    }
  }

  lemma Associate(a: string, b: string, c: string)
    ensures (a + b) + c == a + (b + c)
  {}

  /** The rest of a quoted string is read up to its closing quote. */
  lemma {:induction false} StringsAreReadBack(s: string, rest: string)
    ensures ReadString(QuoteRest(s) + rest) == Some(Reading(s, rest))
  {
    if s == "" {
      assert ("\"" + rest)[1..] == rest;
    } else {
      StringsAreReadBack(s[1..], rest);
      OneMoreIsReadBack(s[0], s[1..], rest);
      assert [s[0]] + s[1..] == s;
    }
  }

  lemma OneMoreIsReadBack(c: char, s: string, rest: string)
    requires ReadString(QuoteRest(s) + rest) == Some(Reading(s, rest))
    ensures ReadString((Escape(c) + QuoteRest(s)) + rest) == Some(Reading([c] + s, rest))
  {
    Associate(Escape(c), QuoteRest(s), rest);
    EscapesAreRead(c, QuoteRest(s) + rest);
  }

  /** A quoted string is read back as it was. */
  lemma QuotedStringsAreReadBack(s: string, rest: string)
    ensures Quote(s) != "" && Quote(s)[0] == '\"' && ReadString(Quote(s)[1..] + rest) == Some(Reading(s, rest))
  {
    StringsAreReadBack(s, rest);
    assert Quote(s)[1..] == QuoteRest(s);
  }

  // ── Other values ──────────────────────────────────────────────────────

  /** The texts, with commas between them. */
  function Joined(texts: seq<string>): string {
    if |texts| == 0 then "" else if |texts| == 1 then texts[0] else texts[0] + "," + Joined(texts[1..])
  }

  function ElementTexts(items: Items): seq<string> {
    match items case NoItems => [] case Item(head, tail) => [Stringify(head)] + ElementTexts(tail)
  }

  function MemberTexts(f: Fields): seq<string> {
    match f
    case NoFields => []
    case Field(key, value, rest) => [MemberText(key, value)] + MemberTexts(rest)
  }

  function MemberText(key: string, value: Json): string {
    Quote(key) + ":" + Stringify(value)
  }

  lemma AtomsAre(b: bool, n: NumberText)
    ensures Stringify(Null) == "null" && Stringify(Bool(true)) == "true" && Stringify(Bool(false)) == "false"
    ensures Stringify(Number(n)) == n && Stringify(Bool(b)) in {"true", "false"}
  {}

  lemma JoinedUnfolds(first: string, texts: seq<string>)
    requires texts != []
    ensures Joined([first] + texts) == first + "," + Joined(texts)
  {
    assert ([first] + texts)[1..] == texts;
  }

  lemma CommaThenRest(head: string, rest: string, text: string, joined: string, end: string)
    requires text + rest == joined + end
    ensures head + ("," + (text + rest)) == (head + "," + joined) + end
  {}

  lemma {:induction false} MoreItemsAre(head: string, items: Items)
    ensures head + ItemsRest(items) == Joined([head] + ElementTexts(items)) + "]"
    decreases items
  {
    match items
    case NoItems => assert [head] + [] == [head];
    case Item(next, tail) =>
      var text := Stringify(next);
      MoreItemsAre(text, tail);
      JoinedUnfolds(head, [text] + ElementTexts(tail));
      CommaThenRest(head, ItemsRest(tail), text, Joined([text] + ElementTexts(tail)), "]");
  }

  /** An array is its elements in brackets, separated by commas. */
  lemma ArraysAre(items: Items)
    ensures Stringify(Arr(items)) == "[" + (Joined(ElementTexts(items)) + "]")
  {
    if items.Item? {
      MoreItemsAre(Stringify(items.head), items.tail);
    }
  }

  lemma Regroup(a: string, b: string, c: string, d: string)
    ensures a + (b + (c + d)) == (a + b + c) + d
  {}

  lemma MembersBegin(f: Fields)
    requires f.Field?
    ensures FieldsText(f) == MemberText(f.key, f.value) + FieldsRest(f.rest)
  {
    Regroup(Quote(f.key), ":", Stringify(f.value), FieldsRest(f.rest));
  }

  lemma {:induction false} MoreMembersAre(head: string, f: Fields)
    ensures head + FieldsRest(f) == Joined([head] + MemberTexts(f)) + "}"
    decreases f
  {
    if f.NoFields? {
      assert [head] + [] == [head];
    } else {
      var member := MemberText(f.key, f.value);
      MoreMembersAre(member, f.rest);
      MembersBegin(f);
      JoinedUnfolds(head, [member] + MemberTexts(f.rest));
      CommaThenRest(head, FieldsRest(f.rest), member, Joined([member] + MemberTexts(f.rest)), "}");
    }
  }

  /** An object is its members in braces, separated by commas, each a quoted key, a colon and a value. */
  lemma ObjectsAre(f: Fields)
    ensures Stringify(Obj(f)) == "{" + (Joined(MemberTexts(f)) + "}")
  {
    if f.Field? {
      MembersBegin(f);
      MoreMembersAre(MemberText(f.key, f.value), f.rest);
    }
  }

  // ── What is hashed of a claim ─────────────────────────────────────────

  /** The members of a hashed claim: the required ones, and of the optional ones those it has. */
  lemma AHashedClaimHas(c: TypedClaim)
    ensures ClaimJson(c).Obj?
    ensures var keys := Keys(ClaimJson(c).fields);
      && (forall key :: key in {"claimId", "claim", "type", "path", "confidence", "source", "ts"} ==> key in keys)
      && ("sourceRef" in keys <==> c.sourceRef.Some?) && ("command" in keys <==> c.command.Some?)
      && ("expectedSubstring" in keys <==> c.expectedSubstring.Some?)
      && ("auditVerdict" in keys <==> c.auditVerdict.Some?)
    ensures Get(ClaimJson(c).fields, "claimId") == Str(c.claimId) && Get(ClaimJson(c).fields, "claim") == Str(c.claim)
    ensures Get(ClaimJson(c).fields, "path") == Str(c.path) && Get(ClaimJson(c).fields, "source") == Str(c.source)
    ensures Get(ClaimJson(c).fields, "ts") == Str(c.ts)
  {
    ClaimKeysAreDistinct(c);
    forall i | 0 <= i < |ClaimProperties(c)|
      ensures ClaimProperties(c)[i].0 in Keys(ClaimJson(c).fields) <==> ClaimProperties(c)[i].1.Some?
      ensures ClaimProperties(c)[i].1.Some? ==>
        Get(ClaimJson(c).fields, ClaimProperties(c)[i].0) == ClaimProperties(c)[i].1.value
    {
      PropertyIsFound(ClaimProperties(c), i);
    }
    var ps := ClaimProperties(c);
    assert ps[0].0 == "claimId" && ps[1].0 == "claim" && ps[2].0 == "type" && ps[3].0 == "path";
    assert ps[4].0 == "confidence" && ps[5].0 == "source" && ps[6].0 == "sourceRef" && ps[7].0 == "command";
    assert ps[8].0 == "expectedSubstring" && ps[9].0 == "auditVerdict" && ps[10].0 == "ts";
  }
}
