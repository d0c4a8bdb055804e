/**
 * What one append to the evidence ledger answers and leaves (src/evidence/ledger.ts:55-101),
 * and which claims it takes (src/evidence/claim.ts:22-54), in terms of entries and fields.
 */
module EvidenceAnswers {
  import opened Common
  import opened EvidenceLedger

  // ── Claims ────────────────────────────────────────────────────────────

  /** "clm_", the first character of the id proper, and the rest. */
  predicate Spells(id: string, first: char, rest: string) {
    && id == "clm_" + [first] + rest && 1 <= |rest| <= 80 && first !in {'.', '_', '-'} && IdPart(first)
    && forall c :: c in rest ==> IdPart(c)
  }

  lemma ClaimIdsAreSpelt(id: string)
    requires ClaimIdOk(id)
    ensures |id| > 5 && Spells(id, id[4], id[5..])
  {
    assert id == "clm_" + [id[4]] + id[5..];
    assert forall c :: c in id[5..] ==> IdPart(c);
  }

  lemma WhatIsSpeltIsAClaimId(id: string, first: char, rest: string)
    requires Spells(id, first, rest)
    ensures ClaimIdOk(id)
  {
    assert id[..4] == "clm_" && id[4] == first;
    assert forall i :: 5 <= i < |id| ==> id[i] == rest[i - 5] && id[i] in rest;
  }

  /** The id of a claim: "clm_", a letter or digit, and up to eighty of those or of ". _ -", at least one. */
  lemma ClaimIdsAre(id: string)
    ensures ClaimIdOk(id) <==> exists first: char, rest: string :: Spells(id, first, rest)
  {
    if ClaimIdOk(id) {
      ClaimIdsAreSpelt(id);
    }
    if first: char, rest: string :| Spells(id, first, rest) {
      WhatIsSpeltIsAClaimId(id, first, rest);
    }
  }

  lemma IdPartsAre(c: char)
    ensures IdPart(c) <==> 'a' <= c <= 'z' || '0' <= c <= '9' || c in {'.', '_', '-'}
  {}

  /** What a claim needs beside its id, by its type; a narrative may claim no confidence. */
  lemma WhatAClaimNeeds(c: TypedClaim)
    ensures ClaimOk(c) <==>
      && ClaimIdOk(c.claimId) && |c.claim| > 0 && |c.path| > 0 && |c.source| > 0
      && c.sourceRef != Some("") && c.command != Some("") && c.expectedSubstring != Some("")
      && 0 <= c.confidence <= UNITS_IN_ONE
      && (match c.kind
          case Narrative => c.confidence == 0
          case FileContains => c.expectedSubstring.Some?
          case CommandOutputMatch => c.command.Some? && c.expectedSubstring.Some?
          case AuditFinding => c.auditVerdict.Some? && c.sourceRef.Some?
          case _ => true)
  {}

  // ── One append ────────────────────────────────────────────────────────

  /** Entry `i` follows the one before it and its hash is that of what it holds. */
  predicate Follows(hash: Hash, entries: seq<Entry>, i: nat)
    requires i < |entries|
  {
    var prev := if i == 0 then None else Some(entries[i - 1].entryHash);
    entries[i].prevHash == prev && entries[i].entryHash == hash(prev, entries[i].claim)
  }

  predicate Whole(hash: Hash, entries: seq<Entry>) {
    forall i :: 0 <= i < |entries| ==> Follows(hash, entries, i)
  }

  lemma ChainsAreWhole(hash: Hash, entries: seq<Entry>)
    ensures ChainValid(hash, entries) <==> Whole(hash, entries)
  {
    forall i | 0 <= i < |entries| ensures LinkedAt(hash, entries, i) <==> Follows(hash, entries, i) {
      assert i > 0 ==> entries[..i][i - 1] == entries[i - 1];
    }
  }

  predicate Known(entries: seq<Entry>, id: string) {
    exists e :: e in entries && e.claim.claimId == id
  }

  lemma KnownIff(entries: seq<Entry>, id: string)
    ensures HasClaim(entries, id) <==> Known(entries, id)
  {
    if HasClaim(entries, id) {
      var i :| 0 <= i < |entries| && entries[i].claim.claimId == id;
      assert entries[i] in entries;
    }
    if Known(entries, id) {
      var e :| e in entries && e.claim.claimId == id;
      var i :| 0 <= i < |entries| && entries[i] == e;
    }
  }

  /** A malformed claim is refused, whatever the ledger. */
  lemma MalformedClaimsAreRefused(hash: Hash, files: Files, claim: TypedClaim, disk: Disk, r: Result<Entry, Error>)
    requires Answers(hash, files, claim, disk, r) && !ClaimOk(claim)
    ensures r == Err(InvalidClaim) && AfterAppend(hash, files, claim, disk) == files
  {}

  /** A known id is answered with its first entry, and nothing is written. */
  lemma KnownClaimsAreAnswered(hash: Hash, files: Files, claim: TypedClaim, disk: Disk, r: Result<Entry, Error>, i: nat)
    requires Answers(hash, files, claim, disk, r) && ClaimOk(claim)
    requires i < |files.entries| && files.entries[i].claim.claimId == claim.claimId
    requires forall k :: 0 <= k < i ==> files.entries[k].claim.claimId != claim.claimId
    ensures r == Ok(files.entries[i]) && AfterAppend(hash, files, claim, disk) == files
  {
    assert HasClaim(files.entries, claim.claimId);
    TheFirstEntryIs(files.entries, claim.claimId, i);
  }

  lemma {:induction false} TheFirstEntryIs(entries: seq<Entry>, id: string, i: nat)
    requires i < |entries| && entries[i].claim.claimId == id
    requires forall k :: 0 <= k < i ==> entries[k].claim.claimId != id
    ensures HasClaim(entries, id) && FirstEntry(entries, id) == entries[i]
  {
    if i > 0 {
      TheFirstEntryIs(entries[1..], id, i - 1);
    }
  }

  /** A broken chain takes no entry: the append is refused at its first broken one. */
  lemma ABrokenChainIsNotExtended(hash: Hash, files: Files, claim: TypedClaim, disk: Disk, r: Result<Entry, Error>,
                                  at: nat)
    requires Answers(hash, files, claim, disk, r) && ClaimOk(claim) && !Known(files.entries, claim.claimId)
    requires at < |files.entries| && !Follows(hash, files.entries, at) && Whole(hash, files.entries[..at])
    ensures AfterAppend(hash, files, claim, disk) == files && r.Err? && r.error.BrokenChain?
    ensures r.error.verdict == PrevHashMismatch(at) || r.error.verdict == EntryHashMismatch(at)
  {
    KnownIff(files.entries, claim.claimId);
    ChainsAreWhole(hash, files.entries);
    ChainsAreWhole(hash, files.entries[..at]);
    var found := FirstBroken(r.error.verdict);
    ChainsAreWhole(hash, files.entries[..found]);
    assert found < at ==> Follows(hash, files.entries[..at], found);
    assert at < found ==> Follows(hash, files.entries[..found], at);
  }

  function FirstBroken(verdict: Verdict): nat {
    match verdict case ChainOk => 0 case PrevHashMismatch(at) => at case EntryHashMismatch(at) => at
  }

  /** A new claim on a whole chain is appended unless its line fails to be written; the
      snapshot then lists all claims, their number and the last hash, if it is written. */
  lemma NewClaimsAreAppended(hash: Hash, files: Files, claim: TypedClaim, disk: Disk, r: Result<Entry, Error>)
    requires Answers(hash, files, claim, disk, r) && ClaimOk(claim) && !Known(files.entries, claim.claimId)
    requires Whole(hash, files.entries)
    ensures var after := AfterAppend(hash, files, claim, disk);
      && (disk.AppendFails? ==> after == files && r == Err(WriteFailed))
      && (!disk.AppendFails? ==>
            && |after.entries| == |files.entries| + 1 && files.entries <= after.entries && Whole(hash, after.entries)
            && after.entries[|files.entries|].claim == claim
            && (disk.SnapshotFails? ==> after.snapshot == files.snapshot && r == Err(WriteFailed))
            && (disk.AllOk? ==>
                  && r == Ok(after.entries[|files.entries|]) && after.snapshot.Some?
                  && after.snapshot.value.count == |after.entries| == |after.snapshot.value.claims|
                  && after.snapshot.value.lastEntryHash == r.value.entryHash
                  && forall i :: 0 <= i < |after.entries| ==> after.snapshot.value.claims[i] == after.entries[i].claim))
  {
    KnownIff(files.entries, claim.claimId);
    ChainsAreWhole(hash, files.entries);
    var after := AfterAppend(hash, files, claim, disk);
    if !disk.AppendFails? {
      forall i | 0 <= i < |after.entries| ensures Follows(hash, after.entries, i) {
        if i < |files.entries| {
          assert Follows(hash, files.entries, i);
        }
      }
    }
  }

  // ── Over every run ────────────────────────────────────────────────────

  /** The claim is well formed and its line can be written. */
  predicate Lands(a: Action) {
    ClaimOk(a.claim) && !a.disk.AppendFails?
  }

  /** The action is the first to land under its id. */
  predicate FirstToLand(actions: seq<Action>, i: nat) {
    && i < |actions| && Lands(actions[i])
    && forall j :: 0 <= j < i && Lands(actions[j]) ==> actions[j].claim.claimId != actions[i].claim.claimId
  }

  predicate Holds(entries: seq<Entry>, claim: TypedClaim) {
    exists e :: e in entries && e.claim == claim
  }

  lemma OneMoreAction(hash: Hash, actions: seq<Action>, a: Action)
    ensures var files, after := Run(hash, actions), Run(hash, actions + [a]);
      if Lands(a) && !Known(files.entries, a.claim.claimId)
      then |after.entries| == |files.entries| + 1 && files.entries <= after.entries
           && after.entries[|files.entries|].claim == a.claim
      else after.entries == files.entries
  {
    assert (actions + [a])[..|actions|] == actions;
    EveryRunKeepsTheChain(hash, actions);
    KnownIff(Run(hash, actions).entries, a.claim.claimId);
  }

  predicate LandsAs(actions: seq<Action>, j: nat, id: string) {
    j < |actions| && Lands(actions[j]) && actions[j].claim.claimId == id
  }

  /** An id is known after a run exactly if a claim landed under it. */
  lemma {:induction false} TheLedgerKnows(hash: Hash, actions: seq<Action>, id: string)
    ensures Known(Run(hash, actions).entries, id) <==> exists j: nat :: LandsAs(actions, j, id)
  {
    if actions != [] {
      var n := |actions| - 1;
      var front, last := actions[..n], actions[n];
      assert actions == front + [last];
      TheLedgerKnows(hash, front, id);
      OneMoreAction(hash, front, last);
      var before, after := Run(hash, front).entries, Run(hash, actions).entries;
      assert after == before || after == before + [after[|before|]];
      assert forall j: nat :: j < n ==> (LandsAs(actions, j, id) <==> LandsAs(front, j, id));
      if LandsAs(actions, n, id) {
        assert Known(after, id);
      }
      if Known(before, id) {
        var j: nat :| LandsAs(front, j, id);
        assert LandsAs(actions, j, id);
      }
    }
  }

  lemma FirstToLandIn(front: seq<Action>, last: Action, i: nat)
    ensures FirstToLand(front + [last], i) <==>
            if i < |front| then FirstToLand(front, i)
            else i == |front| && Lands(last) && !exists j: nat :: LandsAs(front, j, last.claim.claimId)
  {
    var all, id := front + [last], last.claim.claimId;
    assert forall j :: 0 <= j < |front| ==> all[j] == front[j];
    if i == |front| && FirstToLand(all, i) {
      forall j: nat ensures !LandsAs(front, j, id) {
        assert j < |front| ==> all[j] == front[j];
      }
    }
    if i == |front| && Lands(last) && !exists j: nat :: LandsAs(front, j, id) {
      forall j | 0 <= j < i && Lands(all[j]) ensures all[j].claim.claimId != id {
        assert !LandsAs(front, j, id);
      }
    }
  }

  /**
   * What the ledger holds after a run: of each id the first well-formed claim whose line
   * could be written, and nothing else, whatever became of the snapshots.
   */
  lemma {:induction false} TheLedgerHolds(hash: Hash, actions: seq<Action>, claim: TypedClaim)
    ensures Holds(Run(hash, actions).entries, claim) <==>
            exists i: nat :: FirstToLand(actions, i) && actions[i].claim == claim
  {
    if actions != [] {
      var n := |actions| - 1;
      var front, last := actions[..n], actions[n];
      assert actions == front + [last];
      TheLedgerHolds(hash, front, claim);
      TheLedgerKnows(hash, front, last.claim.claimId);
      OneMoreAction(hash, front, last);
      forall i: nat ensures FirstToLand(actions, i) <==> if i < n then FirstToLand(front, i) else
        i == n && Lands(last) && !Known(Run(hash, front).entries, last.claim.claimId)
      {
        FirstToLandIn(front, last, i);
      }
      HoldsOneMore(Run(hash, front).entries, Run(hash, actions).entries, claim);
      if FirstToLand(actions, n) && last.claim == claim {
        assert FirstToLand(actions, n) && actions[n].claim == claim;
      }
      if i: nat :| FirstToLand(front, i) && front[i].claim == claim {
        assert FirstToLand(actions, i) && actions[i].claim == claim;
      }
    }
  }

  lemma HoldsOneMore(before: seq<Entry>, after: seq<Entry>, claim: TypedClaim)
    requires after == before || (|after| == |before| + 1 && before <= after)
    ensures Holds(after, claim) <==> Holds(before, claim) || (after != before && after[|before|].claim == claim)
  {
    if after != before {
      assert after == before + [after[|before|]];
    }
  }
}
