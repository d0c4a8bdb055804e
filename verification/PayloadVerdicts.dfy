/**
 * When a work order is accepted (src/atlas/queue-auth.ts:77-176), and where the entries of
 * the nonce ledger come from.
 */
module PayloadVerdicts {
  import opened Common
  import opened QueueAuth

  const DAY := 86_400_000

  /** The row carries a signature, and it is the keyed hash of the row's own fields. */
  predicate SignedForItself(env: Env, row: Row) {
    && row.payload.Some?
    && env.hmac(row.command, row.chatId, row.payload.value.ts, row.payload.value.nonce) == row.payload.value.sig
  }

  /** Its date can be read and is at most a day before `now`. */
  predicate InDate(env: Env, row: Row, now: int) {
    row.payload.Some? && env.parse(row.payload.value.ts).Some? && now <= env.parse(row.payload.value.ts).value + DAY
  }

  /** Some entry of the ledger has the row's nonce. */
  predicate NonceHeld(s: State, row: Row) {
    row.payload.Some? && exists e :: e in s.entries && e.nonce == row.payload.value.nonce
  }

  // ── One verification ──────────────────────────────────────────────────

  /** When a row is accepted, and when each refusal is given. */
  lemma TheVerdictIs(env: Env, s: State, row: Row, check: int, stamp: int, evict: int)
    requires Consistent(s)
    ensures var v := Judge(env, s, Verify(row, check, stamp, evict));
      && (v == Accepted <==> SignedForItself(env, row) && InDate(env, row, check) && !NonceHeld(s, row))
      && (v == Unsigned <==> row.payload.None?)
      && (v == SigMismatch <==> row.payload.Some? && !SignedForItself(env, row))
      && (v == Expired <==> SignedForItself(env, row) && !InDate(env, row, check))
      && (v == NonceReuse <==> SignedForItself(env, row) && InDate(env, row, check) && NonceHeld(s, row))
  {}

  /** A refusal leaves the ledger and its file as they were. */
  lemma RefusalsChangeNothing(env: Env, s: State, row: Row, check: int, stamp: int, evict: int)
    requires Consistent(s)
    requires !SignedForItself(env, row) || !InDate(env, row, check) || NonceHeld(s, row)
    ensures Next(env, s, Verify(row, check, stamp, evict)) == s
  {}

  /** An acceptance records the nonce under its stamp, in list, set and file; what is a day
      old is dropped only when the list would exceed ten thousand. */
  lemma AcceptancesAreRecorded(env: Env, s: State, row: Row, check: int, stamp: int, evict: int)
    requires Consistent(s) && SignedForItself(env, row) && InDate(env, row, check) && !NonceHeld(s, row)
    ensures var s' := Next(env, s, Verify(row, check, stamp, evict));
      var grown := s.entries + [Entry(row.payload.value.nonce, stamp)];
      && s'.file == Some(s'.entries) && Consistent(s')
      && (|s.entries| < 10_000 ==> s'.entries == grown)
      && (|s.entries| >= 10_000 ==>
            forall e :: e in s'.entries <==> e in grown && evict < e.ts + DAY)
  {
    var grown := s.entries + [Entry(row.payload.value.nonce, stamp)];
    RecentKeeps(grown, evict - MAX_AGE);
  }

  /** A restart keeps exactly the entries of the file that are less than a day old. */
  lemma RestartsKeepTheLastDay(env: Env, s: State, load: int)
    ensures var s' := Next(env, s, Restart(load));
      && (s.file.None? ==> s' == EMPTY)
      && (s.file.Some? ==>
            && s'.file == Some(s'.entries)
            && forall e :: e in s'.entries <==> e in s.file.value && load < e.ts + DAY)
  {
    if s.file.Some? {
      RecentKeeps(s.file.value, load - MAX_AGE);
    }
  }

  /** Dropping old entries is done entry by entry and keeps their order. */
  lemma {:induction false} RecentOfBoth(a: seq<Entry>, b: seq<Entry>, cutoff: int)
    ensures Recent(a + b, cutoff) == Recent(a, cutoff) + Recent(b, cutoff)
  {
    if b == [] {
      assert a + b == a;
    } else {
      var n := |b| - 1;
      assert (a + b)[..|a| + n] == a + b[..n];
      RecentOfBoth(a, b[..n], cutoff);
    }
  }

  lemma RecentOfOne(e: Entry, cutoff: int)
    ensures Recent([e], cutoff) == if e.ts > cutoff then [e] else []
  {
    assert [e][..0] == [];
  }

  // ── Signing and verifying ─────────────────────────────────────────────

  /** A row as the sender signs it (src/atlas/queue-auth.ts:58-69). */
  function SignedRow(env: Env, command: string, chatId: int, ts: string, nonce: string): Row {
    Row(command, chatId, Some(Signed(env.hmac(command, chatId, ts, nonce), ts, nonce)))
  }

  /**
   * A signed row with a new nonce is accepted within a day of its date, and only once: again,
   * it is refused, unless it was evicted by its own acceptance because more than a day went by.
   */
  lemma SignedRowsAreAcceptedOnce(
    env: Env, s: State, command: string, chatId: int, ts: string, nonce: string, check: int, stamp: int, evict: int)
    requires Consistent(s) && nonce !in NoncesOf(s.entries)
    requires env.parse(ts).Some? && check <= env.parse(ts).value + DAY
    ensures var verify := Verify(SignedRow(env, command, chatId, ts, nonce), check, stamp, evict);
      && Judge(env, s, verify) == Accepted
      && Judge(env, Next(env, s, verify), verify) ==
           if |s.entries| < 10_000 || evict < stamp + DAY then NonceReuse else Accepted
  {
    var row := SignedRow(env, command, chatId, ts, nonce);
    var verify := Verify(row, check, stamp, evict);
    TheVerdictIs(env, s, row, check, stamp, evict);
    AcceptancesAreRecorded(env, s, row, check, stamp, evict);
    var s' := Next(env, s, verify);
    var grown := s.entries + [Entry(nonce, stamp)];
    assert grown[|s.entries|] == Entry(nonce, stamp);
    forall e | e in grown && e.nonce == nonce ensures e == Entry(nonce, stamp) {}
    TheVerdictIs(env, s', row, check, stamp, evict);
  }

  /** A row whose hash differs from that of the signed fields is refused for its signature. */
  lemma ChangedRowsAreRefused(env: Env, s: State, signed: Row, row: Row, check: int, stamp: int, evict: int)
    requires Consistent(s) && SignedForItself(env, signed) && row.payload.Some?
    requires row.payload.value.sig == signed.payload.value.sig
    requires env.hmac(row.command, row.chatId, row.payload.value.ts, row.payload.value.nonce)
          != env.hmac(signed.command, signed.chatId, signed.payload.value.ts, signed.payload.value.nonce)
    ensures Judge(env, s, Verify(row, check, stamp, evict)) == SigMismatch
  {
    TheVerdictIs(env, s, row, check, stamp, evict);
  }

  // ── Over all runs ─────────────────────────────────────────────────────

  /** Whatever was accepted, in whatever run, was signed for itself, in date and new. */
  lemma OnlyGenuineRowsAreAccepted(env: Env, start: State, actions: seq<Action>, i: nat)
    requires Consistent(start) && AcceptedAt(env, start, actions, i)
    ensures Genuine(env, actions[i].row) && SignedForItself(env, actions[i].row)
    ensures InDate(env, actions[i].row, actions[i].check)
    ensures !NonceHeld(Run(env, start, actions[..i]), actions[i].row)
  {
    EveryRunIsConsistent(env, start, actions[..i]);
    var a := actions[i];
    TheVerdictIs(env, Run(env, start, actions[..i]), a.row, a.check, a.stamp, a.evict);
  }

  /** Action `i` of the run was an acceptance and put this entry into the ledger. */
  predicate PutBy(env: Env, start: State, actions: seq<Action>, i: nat, e: Entry) {
    && AcceptedAt(env, start, actions, i) && actions[i].row.payload.Some?
    && e == Entry(NonceAt(actions, i), actions[i].stamp)
  }

  lemma NewEntriesAreAccepted(env: Env, s: State, a: Action, e: Entry)
    requires Consistent(s) && e in Next(env, s, a).entries && e !in s.entries
    ensures a.Verify? && Judge(env, s, a) == Accepted && a.row.payload.Some?
    ensures e == Entry(a.row.payload.value.nonce, a.stamp)
  {
    match a
    case Restart(load) => RestartsKeepTheLastDay(env, s, load);
    case Verify(row, check, stamp, evict) =>
      RecentKeeps(s.entries + [Entry(row.payload.value.nonce, stamp)], evict - MAX_AGE);
  }

  lemma PutByEarlier(env: Env, start: State, actions: seq<Action>, i: nat, e: Entry, n: nat)
    requires n <= |actions| && PutBy(env, start, actions[..n], i, e)
    ensures PutBy(env, start, actions, i, e)
  {
    assert actions[..n][..i] == actions[..i];
  }

  /** Every entry of the ledger was there at the start or was put there by an acceptance. */
  lemma {:induction false} EntriesComeFromAcceptances(env: Env, start: State, actions: seq<Action>, e: Entry)
    requires Consistent(start) && e in Run(env, start, actions).entries && e !in start.entries
    ensures exists i: nat :: PutBy(env, start, actions, i, e)
  {
    var n := |actions| - 1;
    var before := Run(env, start, actions[..n]);
    EveryRunIsConsistent(env, start, actions[..n]);
    if e in before.entries {
      EntriesComeFromAcceptances(env, start, actions[..n], e);
      var i: nat :| PutBy(env, start, actions[..n], i, e);
      PutByEarlier(env, start, actions, i, e, n);
    } else {
      NewEntriesAreAccepted(env, before, actions[n], e);
      assert PutBy(env, start, actions, n, e);
    }
  }
}
