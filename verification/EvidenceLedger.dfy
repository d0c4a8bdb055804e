/**
 * Typed claims and the hash-chained evidence ledger (src/evidence/claim.ts,
 * src/evidence/ledger.ts).  The hash of an entry is a function of the previous hash
 * and the claim; where a result needs collision resistance it assumes the function
 * injective.
 */
module EvidenceLedger {
  import opened Common

  // ── Typed claims ──────────────────────────────────────────────────────

  datatype ClaimType =
    | FileExists | CommitExists | FileContains | CommandOutputMatch
    | BrowserAction | Narrative | AuditFinding

  datatype AuditVerdict = Confirmed | Stale | Tampered | CountMismatch

  /** Confidence is a double between 0 and 1: a whole number of units of 2^-1074. */
  function Pow2(n: nat): (p: nat)
    ensures p > 0
  {
    if n == 0 then 1 else 2 * Pow2(n - 1)
  }

  const UNITS_IN_ONE: nat := Pow2(1074)

  datatype TypedClaim = TypedClaim(
    claimId: string,
    claim: string,
    kind: ClaimType,
    path: string,
    confidence: int,
    source: string,
    sourceRef: Option<string>,
    command: Option<string>,
    expectedSubstring: Option<string>,
    auditVerdict: Option<AuditVerdict>,
    ts: string
  )

  predicate IdStart(c: char) {
    'a' <= c <= 'z' || '0' <= c <= '9'
  }

  predicate IdPart(c: char) {
    IdStart(c) || c == '.' || c == '_' || c == '-'
  }

  predicate ClaimIdOk(id: string) {
    && 6 <= |id| <= 85
    && id[..4] == "clm_"
    && IdStart(id[4])
    && forall i :: 5 <= i < |id| ==> IdPart(id[i])
  }

  predicate Filled(s: Option<string>) {
    s.None? || s.value != ""
  }

  predicate ClaimOk(c: TypedClaim) {
    && ClaimIdOk(c.claimId)
    && c.claim != "" && c.path != "" && c.source != ""
    && 0 <= c.confidence <= UNITS_IN_ONE
    && Filled(c.sourceRef) && Filled(c.command) && Filled(c.expectedSubstring)
    && (c.kind == Narrative ==> c.confidence <= 0)
    && (c.kind == FileContains ==> c.expectedSubstring.Some?)
    && (c.kind == CommandOutputMatch ==> c.command.Some? && c.expectedSubstring.Some?)
    && (c.kind == AuditFinding ==> c.auditVerdict.Some? && c.sourceRef.Some?)
  }

  // ── The chain ─────────────────────────────────────────────────────────

  datatype Entry = Entry(prevHash: Option<string>, entryHash: string, claim: TypedClaim)

  type Hash = (Option<string>, TypedClaim) -> string

  ghost predicate Injective(hash: Hash) {
    forall p, c, p', c' :: hash(p, c) == hash(p', c') ==> p == p' && c == c'
  }

  /** The hash of the last entry; none for an empty ledger. */
  function Head(entries: seq<Entry>): Option<string> {
    if entries == [] then None else Some(entries[|entries| - 1].entryHash)
  }

  predicate LinkedAt(hash: Hash, entries: seq<Entry>, i: nat)
    requires i < |entries|
  {
    && entries[i].prevHash == Head(entries[..i])
    && entries[i].entryHash == hash(entries[i].prevHash, entries[i].claim)
  }

  predicate ChainValid(hash: Hash, entries: seq<Entry>) {
    forall i :: 0 <= i < |entries| ==> LinkedAt(hash, entries, i)
  }

  datatype Verdict = ChainOk | PrevHashMismatch(at: nat) | EntryHashMismatch(at: nat)

  /** What a verdict claims about a ledger: the first broken entry, and how it is broken. */
  predicate VerdictFits(hash: Hash, entries: seq<Entry>, verdict: Verdict) {
    match verdict
    case ChainOk => ChainValid(hash, entries)
    case PrevHashMismatch(at) =>
      && at < |entries|
      && ChainValid(hash, entries[..at])
      && entries[at].prevHash != Head(entries[..at])
    case EntryHashMismatch(at) =>
      && at < |entries|
      && ChainValid(hash, entries[..at])
      && entries[at].prevHash == Head(entries[..at])
      && entries[at].entryHash != hash(entries[at].prevHash, entries[at].claim)
  }

  lemma PrefixIsValid(hash: Hash, entries: seq<Entry>, n: nat)
    requires n <= |entries| && ChainValid(hash, entries)
    ensures ChainValid(hash, entries[..n])
  {
    forall i | 0 <= i < n ensures LinkedAt(hash, entries[..n], i) {
      assert entries[..n][..i] == entries[..i];
      assert LinkedAt(hash, entries, i);
    }
  }

  lemma LinkExtendsChain(hash: Hash, entries: seq<Entry>, entry: Entry)
    requires ChainValid(hash, entries)
    requires entry.prevHash == Head(entries)
    requires entry.entryHash == hash(entry.prevHash, entry.claim)
    ensures ChainValid(hash, entries + [entry])
  {
    var longer := entries + [entry];
    forall i | 0 <= i < |longer| ensures LinkedAt(hash, longer, i) {
      assert longer[..i] == entries[..i];
      if i < |entries| {
        assert LinkedAt(hash, entries, i);
      } else {
        assert entries[..i] == entries;
      }
    }
  }

  lemma ABrokenEntryBreaksTheChain(hash: Hash, entries: seq<Entry>, verdict: Verdict, n: nat)
    requires VerdictFits(hash, entries, verdict) && !verdict.ChainOk?
    requires verdict.at < n <= |entries|
    ensures !ChainValid(hash, entries[..n])
  {
    assert entries[..n][..verdict.at] == entries[..verdict.at];
    assert !LinkedAt(hash, entries[..n], verdict.at);
  }

  /** A ledger has exactly one fitting verdict, so the reported index is the first broken one. */
  lemma VerdictIsUnique(hash: Hash, entries: seq<Entry>, one: Verdict, other: Verdict)
    requires VerdictFits(hash, entries, one) && VerdictFits(hash, entries, other)
    ensures one == other
  {
    assert entries[..|entries|] == entries;
    if !one.ChainOk? {
      var n := if other.ChainOk? then |entries| else other.at;
      if one.at < n {
        ABrokenEntryBreaksTheChain(hash, entries, one, n);
      }
    }
    if !other.ChainOk? {
      var n := if one.ChainOk? then |entries| else one.at;
      if other.at < n {
        ABrokenEntryBreaksTheChain(hash, entries, other, n);
      }
    }
  }

  method VerifyLedgerChain(hash: Hash, entries: seq<Entry>) returns (verdict: Verdict)
    ensures VerdictFits(hash, entries, verdict)
  {
    var prev: Option<string> := None;
    var i := 0;
    while i < |entries|
      invariant 0 <= i <= |entries|
      invariant prev == Head(entries[..i])
      invariant ChainValid(hash, entries[..i])
    {
      var e := entries[i];
      if e.prevHash != prev {
        return PrevHashMismatch(i);
      }
      if e.entryHash != hash(e.prevHash, e.claim) {
        return EntryHashMismatch(i);
      }
      LinkExtendsChain(hash, entries[..i], e);
      assert entries[..i] + [e] == entries[..i + 1];
      prev := Some(e.entryHash);
      i := i + 1;
    }
    assert entries[..i] == entries;
    return ChainOk;
  }

  // ── What the chain pins ───────────────────────────────────────────────

  /** Two valid ledgers with the same last hash are the same ledger. */
  lemma {:induction false} TheHeadPinsTheLedger(hash: Hash, a: seq<Entry>, b: seq<Entry>)
    requires Injective(hash)
    requires ChainValid(hash, a) && ChainValid(hash, b)
    requires Head(a) == Head(b)
    ensures a == b
    decreases |a|
  {
    if a != [] {
      var m, n := |a| - 1, |b| - 1;
      assert LinkedAt(hash, a, m) && LinkedAt(hash, b, n);
      PrefixIsValid(hash, a, m);
      PrefixIsValid(hash, b, n);
      TheHeadPinsTheLedger(hash, a[..m], b[..n]);
      assert a == a[..m] + [a[m]] && b == b[..n] + [b[n]];
    }
  }

  /** An entry hash commits to the position of its entry and to everything before it. */
  lemma AnEntryHashPinsItsHistory(hash: Hash, a: seq<Entry>, b: seq<Entry>, i: nat, j: nat)
    requires Injective(hash)
    requires ChainValid(hash, a) && ChainValid(hash, b)
    requires i < |a| && j < |b|
    ensures a[i].entryHash == b[j].entryHash <==> (i == j && a[..i + 1] == b[..j + 1])
  {
    assert a[..i + 1][i] == a[i] && b[..j + 1][j] == b[j];
    if a[i].entryHash == b[j].entryHash {
      PrefixIsValid(hash, a, i + 1);
      PrefixIsValid(hash, b, j + 1);
      TheHeadPinsTheLedger(hash, a[..i + 1], b[..j + 1]);
      assert |a[..i + 1]| == |b[..j + 1]|;
    }
  }

  /** Changing the claim of any entry, whatever else is rewritten to keep the chain
      valid, changes every later entry hash and so the head. */
  lemma AnEditReachesTheHead(hash: Hash, a: seq<Entry>, b: seq<Entry>, i: nat)
    requires Injective(hash)
    requires ChainValid(hash, a) && ChainValid(hash, b)
    requires i < |a| && i < |b| && a[i].claim != b[i].claim
    ensures Head(a) != Head(b)
    ensures forall k :: i <= k < |a| && k < |b| ==> a[k].entryHash != b[k].entryHash
  {
    if Head(a) == Head(b) {
      TheHeadPinsTheLedger(hash, a, b);
    }
    forall k | i <= k < |a| && k < |b| ensures a[k].entryHash != b[k].entryHash {
      AnEntryHashPinsItsHistory(hash, a, b, k, k);
      assert a[..k + 1][i] == a[i] && b[..k + 1][i] == b[i];
    }
  }

  // ── Appending ─────────────────────────────────────────────────────────

  datatype Snapshot = Snapshot(claims: seq<TypedClaim>, lastEntryHash: string, count: nat)

  function Claims(entries: seq<Entry>): seq<TypedClaim> {
    seq(|entries|, i requires 0 <= i < |entries| => entries[i].claim)
  }

  function Project(entries: seq<Entry>): Snapshot
    requires entries != []
  {
    Snapshot(Claims(entries), entries[|entries| - 1].entryHash, |entries|)
  }

  datatype Files = Files(entries: seq<Entry>, snapshot: Option<Snapshot>)

  /** How the two writes of one append end: the ledger line, then the snapshot file. */
  datatype Disk = AllOk | SnapshotFails | AppendFails

  datatype Error = InvalidClaim | BrokenChain(verdict: Verdict) | WriteFailed

  predicate HasClaim(entries: seq<Entry>, id: string) {
    exists i :: 0 <= i < |entries| && entries[i].claim.claimId == id
  }

  function FirstEntry(entries: seq<Entry>, id: string): (e: Entry)
    requires HasClaim(entries, id)
    ensures e in entries && e.claim.claimId == id
  {
    if entries[0].claim.claimId == id then entries[0] else FirstEntry(entries[1..], id)
  }

  function NextEntry(hash: Hash, entries: seq<Entry>, claim: TypedClaim): Entry {
    Entry(Head(entries), hash(Head(entries), claim), claim)
  }

  /** The call reaches the ledger write. */
  predicate Writes(hash: Hash, files: Files, claim: TypedClaim) {
    && ClaimOk(claim)
    && !HasClaim(files.entries, claim.claimId)
    && ChainValid(hash, files.entries)
  }

  function AfterAppend(hash: Hash, files: Files, claim: TypedClaim, disk: Disk): Files {
    if !Writes(hash, files, claim) || disk.AppendFails? then files
    else
      var entries := files.entries + [NextEntry(hash, files.entries, claim)];
      Files(entries, if disk.AllOk? then Some(Project(entries)) else files.snapshot)
  }

  /** The answers allowed to one call. */
  predicate Answers(hash: Hash, files: Files, claim: TypedClaim, disk: Disk, r: Result<Entry, Error>) {
    if !ClaimOk(claim) then r == Err(InvalidClaim)
    else if HasClaim(files.entries, claim.claimId) then r == Ok(FirstEntry(files.entries, claim.claimId))
    else if !ChainValid(hash, files.entries) then
      && r.Err? && r.error.BrokenChain? && !r.error.verdict.ChainOk?
      && VerdictFits(hash, files.entries, r.error.verdict)
    else if disk.AllOk? then r == Ok(NextEntry(hash, files.entries, claim))
    else r == Err(WriteFailed)
  }

  class Ledger {
    var entries: seq<Entry>
    var snapshot: Option<Snapshot>

    constructor ()
      ensures entries == [] && snapshot == None
    {
      entries, snapshot := [], None;
    }

    function Contents(): Files
      reads this
    {
      Files(entries, snapshot)
    }

    method Find(id: string) returns (found: Option<Entry>)
      ensures HasClaim(entries, id) ==> found == Some(FirstEntry(entries, id))
      ensures !HasClaim(entries, id) ==> found == None
    {
      var i := 0;
      while i < |entries|
        invariant 0 <= i <= |entries|
        invariant HasClaim(entries, id) ==>
                    HasClaim(entries[i..], id) && FirstEntry(entries, id) == FirstEntry(entries[i..], id)
        invariant forall k :: 0 <= k < i ==> entries[k].claim.claimId != id
      {
        if entries[i].claim.claimId == id {
          return Some(entries[i]);
        }
        assert entries[i..][1..] == entries[i + 1..];
        i := i + 1;
      }
      return None;
    }

    method AppendClaim(hash: Hash, claim: TypedClaim, disk: Disk) returns (r: Result<Entry, Error>)
      modifies this
      ensures Contents() == AfterAppend(hash, old(Contents()), claim, disk)
      ensures Answers(hash, old(Contents()), claim, disk, r)
    {
      if !ClaimOk(claim) {
        return Err(InvalidClaim);
      }
      var existing := Find(claim.claimId);
      if existing.Some? {
        return Ok(existing.value);
      }
      var chain := VerifyLedgerChain(hash, entries);
      if !chain.ChainOk? {
        assert entries[..|entries|] == entries;
        ABrokenEntryBreaksTheChain(hash, entries, chain, |entries|);
        return Err(BrokenChain(chain));
      }
      var entry := Entry(Head(entries), hash(Head(entries), claim), claim);
      if disk.AppendFails? {
        return Err(WriteFailed);
      }
      var claims := Claims(entries) + [claim];
      var count := |entries| + 1;
      assert claims == Claims(entries + [entry]);
      entries := entries + [entry];
      if disk.SnapshotFails? {
        return Err(WriteFailed);
      }
      snapshot := Some(Snapshot(claims, entry.entryHash, count));
      return Ok(entry);
    }
  }

  // ── Every run ─────────────────────────────────────────────────────────

  datatype Action = Append(claim: TypedClaim, disk: Disk)

  function Run(hash: Hash, actions: seq<Action>): Files {
    if actions == [] then Files([], None)
    else
      var last := actions[|actions| - 1];
      AfterAppend(hash, Run(hash, actions[..|actions| - 1]), last.claim, last.disk)
  }

  predicate DistinctIds(entries: seq<Entry>) {
    forall i, j :: 0 <= i < j < |entries| ==> entries[i].claim.claimId != entries[j].claim.claimId
  }

  predicate ProjectsPrefix(files: Files, n: nat) {
    && n <= |files.entries|
    && files.snapshot == if n == 0 then None else Some(Project(files.entries[..n]))
  }

  ghost predicate FilesOk(hash: Hash, files: Files) {
    && ChainValid(hash, files.entries)
    && DistinctIds(files.entries)
    && (forall i :: 0 <= i < |files.entries| ==> ClaimOk(files.entries[i].claim))
    && exists n: nat :: ProjectsPrefix(files, n)
  }

  lemma AppendKeepsFiles(hash: Hash, files: Files, claim: TypedClaim, disk: Disk)
    requires FilesOk(hash, files)
    ensures FilesOk(hash, AfterAppend(hash, files, claim, disk))
  {
    var after := AfterAppend(hash, files, claim, disk);
    var n: nat :| ProjectsPrefix(files, n);
    if Writes(hash, files, claim) && !disk.AppendFails? {
      LinkExtendsChain(hash, files.entries, NextEntry(hash, files.entries, claim));
      assert after.entries[..n] == files.entries[..n];
      assert after.entries[..|after.entries|] == after.entries;
      assert ProjectsPrefix(after, if disk.AllOk? then |after.entries| else n);
    }
  }

  /** In every run, with any write failures: the chain is valid, ids are distinct, every
      claim is well formed, and the snapshot file projects some prefix of the ledger. */
  lemma {:induction false} EveryRunKeepsTheChain(hash: Hash, actions: seq<Action>)
    ensures FilesOk(hash, Run(hash, actions))
  {
    if actions == [] {
      assert ProjectsPrefix(Run(hash, actions), 0);
    } else {
      var last := actions[|actions| - 1];
      var before := actions[..|actions| - 1];
      EveryRunKeepsTheChain(hash, before);
      AppendKeepsFiles(hash, Run(hash, before), last.claim, last.disk);
    }
  }

  /** Nothing written is ever rewritten. */
  lemma {:induction false} RunsOnlyExtend(hash: Hash, actions: seq<Action>, n: nat)
    requires n <= |actions|
    ensures Run(hash, actions[..n]).entries <= Run(hash, actions).entries
    decreases |actions|
  {
    if n == |actions| {
      assert actions[..n] == actions;
    } else {
      var before := actions[..|actions| - 1];
      assert before[..n] == actions[..n];
      RunsOnlyExtend(hash, before, n);
    }
  }

  /** The snapshot file describes the whole ledger. */
  predicate SnapshotCurrent(files: Files) {
    files.snapshot == if files.entries == [] then None else Some(Project(files.entries))
  }

  /** The snapshot is current exactly when the write of the last appended line's snapshot
      succeeded: a failed one is repaired only by the next new claim, never by repeating
      the call that failed, which finds its claim and returns early. */
  lemma SnapshotFollowsTheLastAppend(hash: Hash, files: Files, claim: TypedClaim, disk: Disk)
    requires FilesOk(hash, files)
    ensures SnapshotCurrent(AfterAppend(hash, files, claim, disk)) <==>
            if Writes(hash, files, claim) && !disk.AppendFails? then disk.AllOk? else SnapshotCurrent(files)
    ensures Writes(hash, files, claim) && disk.SnapshotFails? ==>
              forall again: Disk ::
                var stale := AfterAppend(hash, files, claim, disk);
                AfterAppend(hash, stale, claim, again) == stale && !SnapshotCurrent(stale)
  {}

  /** The first claim recorded under an id is the one every later call gets back, whatever
      claim it submits and whatever happened in between. */
  lemma FirstWriteWins(hash: Hash, actions: seq<Action>, n: nat, claim: TypedClaim, disk: Disk, r: Result<Entry, Error>)
    requires n <= |actions|
    requires ClaimOk(claim) && HasClaim(Run(hash, actions[..n]).entries, claim.claimId)
    requires Answers(hash, Run(hash, actions), claim, disk, r)
    ensures r == Ok(FirstEntry(Run(hash, actions[..n]).entries, claim.claimId))
    ensures AfterAppend(hash, Run(hash, actions), claim, disk) == Run(hash, actions)
  {
    var early, late := Run(hash, actions[..n]).entries, Run(hash, actions).entries;
    RunsOnlyExtend(hash, actions, n);
    var i :| 0 <= i < |early| && early[i].claim.claimId == claim.claimId;
    assert late[i] == early[i];
    FirstEntryOfPrefix(early, late, claim.claimId);
  }

  lemma {:induction false} FirstEntryOfPrefix(early: seq<Entry>, late: seq<Entry>, id: string)
    requires early <= late && HasClaim(early, id)
    ensures HasClaim(late, id) && FirstEntry(early, id) == FirstEntry(late, id)
    decreases |early|
  {
    var i :| 0 <= i < |early| && early[i].claim.claimId == id;
    assert late[i].claim.claimId == id;
    if early[0].claim.claimId != id {
      assert early[1..][i - 1] == early[i];
      FirstEntryOfPrefix(early[1..], late[1..], id);
    }
  }
}
