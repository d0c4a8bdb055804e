/**
 * The hash of an evidence entry: a digest of the canonical JSON text of its previous hash
 * and claim (src/evidence/ledger.ts).  It is injective whenever the digest is collision
 * free, so the results about the chain speak of every such digest.
 */
module EvidenceHash {
  import opened Common
  import opened Decimal
  import opened CanonicalJson
  import opened EvidenceLedger

  // ── Records as objects ────────────────────────────────────────────────

  /** A property of a record: its key, and its value unless it is undefined. */
  type Property = (string, Option<Json>)

  function FromProperties(ps: seq<Property>): Fields {
    if ps == [] then NoFields
    else if ps[0].1.None? then FromProperties(ps[1..])
    else Field(ps[0].0, ps[0].1.value, FromProperties(ps[1..]))
  }

  predicate DistinctProperties(ps: seq<Property>) {
    && (forall i, j :: 0 <= i < j < |ps| ==> ps[i].0 != ps[j].0)
    && (forall i :: 0 <= i < |ps| && ps[i].1.Some? ==> DistinctKeys(ps[i].1.value))
  }

  lemma {:induction false} PropertyIsFound(ps: seq<Property>, i: nat)
    requires DistinctProperties(ps) && i < |ps|
    ensures ps[i].0 in Keys(FromProperties(ps)) <==> ps[i].1.Some?
    ensures ps[i].1.Some? ==> Get(FromProperties(ps), ps[i].0) == ps[i].1.value
  {
    KeysAreProperties(ps[1..]);
    if i > 0 {
      PropertyIsFound(ps[1..], i - 1);
    }
  }

  lemma {:induction false} KeysAreProperties(ps: seq<Property>)
    ensures forall key :: key in Keys(FromProperties(ps)) ==> exists i :: 0 <= i < |ps| && ps[i].0 == key
  {
    if ps != [] {
      KeysAreProperties(ps[1..]);
      forall key | key in Keys(FromProperties(ps)) ensures exists i :: 0 <= i < |ps| && ps[i].0 == key {
        if key == ps[0].0 {
          assert ps[0].0 == key;
        } else {
          assert key in Keys(FromProperties(ps[1..]));
          var j :| 0 <= j < |ps[1..]| && ps[1..][j].0 == key;
          assert ps[j + 1].0 == key;
        }
      }
    }
  }

  lemma {:induction false} RecordsHaveDistinctKeys(ps: seq<Property>)
    requires DistinctProperties(ps)
    ensures DistinctKeysFields(FromProperties(ps))
  {
    if ps != [] {
      KeysAreProperties(ps[1..]);
      RecordsHaveDistinctKeys(ps[1..]);
    }
  }

  lemma SameRecordsSameProperties(ps: seq<Property>, qs: seq<Property>, i: nat)
    requires DistinctProperties(ps) && DistinctProperties(qs)
    requires i < |ps| && i < |qs| && ps[i].0 == qs[i].0
    requires SameUpToKeyOrder(Obj(FromProperties(ps)), Obj(FromProperties(qs)))
    ensures ps[i].1.Some? <==> qs[i].1.Some?
    ensures ps[i].1.Some? ==> SameUpToKeyOrder(ps[i].1.value, qs[i].1.value)
  {
    PropertyIsFound(ps, i);
    PropertyIsFound(qs, i);
  }

  // ── Entries ───────────────────────────────────────────────────────────

  function Text(s: string): Option<Json> {
    Some(Str(s))
  }

  function OptionalText(s: Option<string>): Option<Json> {
    if s.Some? then Some(Str(s.value)) else None
  }

  /** An injective printing of the confidence. */
  function Printed(n: int): NumberText {
    PrintIsDigits(if n < 0 then -n else n);
    if n < 0 then "-" + Print(-n) else Print(n)
  }

  lemma PrintedIsInjective(m: int, n: int)
    ensures Printed(m) == Printed(n) <==> m == n
  {
    var a, b := if m < 0 then -m else m, if n < 0 then -n else n;
    PrintIsDigits(a);
    PrintIsDigits(b);
    PrintIsInjective(a, b);
    assert Print(a)[0] != '-' && Print(b)[0] != '-';
    assert ("-" + Print(a))[1..] == Print(a) && ("-" + Print(b))[1..] == Print(b);
  }

  function TypeName(kind: ClaimType): string {
    match kind
    case FileExists => "file-exists"
    case CommitExists => "commit-exists"
    case FileContains => "file-contains"
    case CommandOutputMatch => "command-output-match"
    case BrowserAction => "browser-action"
    case Narrative => "narrative"
    case AuditFinding => "audit-finding"
  }

  function VerdictName(verdict: AuditVerdict): string {
    match verdict
    case Confirmed => "confirmed"
    case Stale => "stale"
    case Tampered => "tampered"
    case CountMismatch => "count-mismatch"
  }

  lemma NamesAreInjective(a: ClaimType, b: ClaimType, u: AuditVerdict, v: AuditVerdict)
    ensures TypeName(a) == TypeName(b) <==> a == b
    ensures VerdictName(u) == VerdictName(v) <==> u == v
  {
    assert |TypeName(a)| == |TypeName(b)| && TypeName(a)[0] == TypeName(b)[0] ==> a == b;
    assert |VerdictName(u)| == |VerdictName(v)| ==> u == v;
  }

  function ClaimProperties(c: TypedClaim): seq<Property> {
    [("claimId", Text(c.claimId)),
     ("claim", Text(c.claim)),
     ("type", Text(TypeName(c.kind))),
     ("path", Text(c.path)),
     ("confidence", Some(Number(Printed(c.confidence)))),
     ("source", Text(c.source)),
     ("sourceRef", OptionalText(c.sourceRef)),
     ("command", OptionalText(c.command)),
     ("expectedSubstring", OptionalText(c.expectedSubstring)),
     ("auditVerdict", if c.auditVerdict.Some? then Text(VerdictName(c.auditVerdict.value)) else None),
     ("ts", Text(c.ts))]
  }

  lemma ClaimKeysAreDistinct(c: TypedClaim)
    ensures DistinctProperties(ClaimProperties(c))
  {
    var ps := ClaimProperties(c);
    assert |ps[0].0| == 7 && |ps[1].0| == 5 && |ps[2].0| == 4 && |ps[3].0| == 4 && |ps[4].0| == 10 && |ps[5].0| == 6;
    assert |ps[6].0| == 9 && |ps[7].0| == 7 && |ps[8].0| == 17 && |ps[9].0| == 12 && |ps[10].0| == 2;
    assert ps[0].0[1] == 'l' && ps[7].0[1] == 'o' && ps[2].0[0] == 't' && ps[3].0[0] == 'p';
    forall i, j | 0 <= i < j < |ps| ensures ps[i].0 != ps[j].0 {
    }
  }

  function ClaimJson(c: TypedClaim): Json {
    Obj(FromProperties(ClaimProperties(c)))
  }

  function EntryProperties(prev: Option<string>, claim: TypedClaim): seq<Property> {
    [("prevHash", Some(if prev.Some? then Str(prev.value) else Null)), ("claim", Some(ClaimJson(claim)))]
  }

  function EntryJson(prev: Option<string>, claim: TypedClaim): Json {
    Obj(FromProperties(EntryProperties(prev, claim)))
  }

  /** The hash the ledger computes, for a digest of texts. */
  function EntryHash(digest: string -> string): Hash {
    (prev: Option<string>, claim: TypedClaim) => HashPayload(digest, EntryJson(prev, claim))
  }

  lemma EntryKeysAreDistinct(prev: Option<string>, claim: TypedClaim)
    ensures DistinctProperties(EntryProperties(prev, claim)) && DistinctKeys(EntryJson(prev, claim))
  {
    ClaimKeysAreDistinct(claim);
    RecordsHaveDistinctKeys(ClaimProperties(claim));
    assert |EntryProperties(prev, claim)[0].0| == 8 && |EntryProperties(prev, claim)[1].0| == 5;
    RecordsHaveDistinctKeys(EntryProperties(prev, claim));
  }

  /** Claims with the same JSON up to key order are the same claim. */
  lemma ClaimJsonIsInjective(a: TypedClaim, b: TypedClaim)
    requires SameUpToKeyOrder(ClaimJson(a), ClaimJson(b))
    ensures a == b
  {
    var ps, qs := ClaimProperties(a), ClaimProperties(b);
    ClaimKeysAreDistinct(a);
    ClaimKeysAreDistinct(b);
    forall i | 0 <= i < 11 ensures ps[i].1 == qs[i].1 {
      SameRecordsSameProperties(ps, qs, i);
    }
    SamePropertiesSameClaim(a, b);
  }

  lemma SamePropertiesSameClaim(a: TypedClaim, b: TypedClaim)
    requires forall i :: 0 <= i < 11 ==> ClaimProperties(a)[i].1 == ClaimProperties(b)[i].1
    ensures a == b
  {
    var ps, qs := ClaimProperties(a), ClaimProperties(b);
    assert ps[0].1 == qs[0].1 && ps[1].1 == qs[1].1 && ps[2].1 == qs[2].1 && ps[3].1 == qs[3].1;
    assert ps[4].1 == qs[4].1 && ps[5].1 == qs[5].1 && ps[6].1 == qs[6].1 && ps[7].1 == qs[7].1;
    assert ps[8].1 == qs[8].1 && ps[9].1 == qs[9].1 && ps[10].1 == qs[10].1;
    PrintedIsInjective(a.confidence, b.confidence);
    NamesAreInjective(a.kind, b.kind, Confirmed, Confirmed);
    if a.auditVerdict.Some? && b.auditVerdict.Some? {
      NamesAreInjective(a.kind, b.kind, a.auditVerdict.value, b.auditVerdict.value);
    }
  }

  /** The entry hash commits to previous hash and claim, for every collision-free digest. */
  lemma EntryHashIsInjective(digest: string -> string)
    requires CollisionFree(digest)
    ensures Injective(EntryHash(digest))
  {
    var hash := EntryHash(digest);
    forall p, c, q, d | hash(p, c) == hash(q, d) ensures p == q && c == d {
      EntryKeysAreDistinct(p, c);
      EntryKeysAreDistinct(q, d);
      HashIffSame(digest, EntryJson(p, c), EntryJson(q, d));
      SameRecordsSameProperties(EntryProperties(p, c), EntryProperties(q, d), 0);
      SameRecordsSameProperties(EntryProperties(p, c), EntryProperties(q, d), 1);
      ClaimJsonIsInjective(c, d);
    }
  }

  /** The hypothesis of the results about the chain is met. */
  lemma AnInjectiveEntryHashExists()
    ensures exists hash: Hash :: Injective(hash)
  {
    var digest := (s: string) => s;
    assert CollisionFree(digest);
    EntryHashIsInjective(digest);
    var hash := EntryHash(digest);
    assert Injective(hash);
  }

  /** The program's own ledgers: with a collision-free digest, two ledgers whose chains
      verify and end in the same hash are the same ledger. */
  lemma TheHeadPinsTheProgramsLedger(digest: string -> string, a: seq<Entry>, b: seq<Entry>)
    requires CollisionFree(digest)
    requires ChainValid(EntryHash(digest), a) && ChainValid(EntryHash(digest), b)
    requires Head(a) == Head(b)
    ensures a == b
  {
    EntryHashIsInjective(digest);
    TheHeadPinsTheLedger(EntryHash(digest), a, b);
  }
}
