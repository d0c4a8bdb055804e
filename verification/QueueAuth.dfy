/**
 * Work-order authenticity: payload verification and the file-backed nonce ledger
 * (src/atlas/queue-auth.ts).  Every read of the clock is a separate input, in
 * milliseconds.
 */
module QueueAuth {
  import opened Common

  const MAX_AGE: int := 24 * 60 * 60 * 1000
  const CAP: nat := 10_000

  // ── Payloads ──────────────────────────────────────────────────────────

  datatype Signed = Signed(sig: string, ts: string, nonce: string)

  datatype Row = Row(command: string, chatId: int, payload: Option<Signed>)

  /** The keyed hash for one signing key, and date parsing (none when it is not a date). */
  datatype Env = Env(hmac: (string, int, string, string) -> string, parse: string -> Option<int>)

  datatype Verdict = Accepted | Unsigned | SigMismatch | Expired | NonceReuse

  /** The checks made before the nonce is looked at. */
  function Screen(env: Env, row: Row, now: int): Verdict {
    if row.payload.None? then Unsigned
    else
      var p := row.payload.value;
      if p.sig != env.hmac(row.command, row.chatId, p.ts, p.nonce) then SigMismatch
      else if env.parse(p.ts).None? || now - env.parse(p.ts).value > MAX_AGE then Expired
      else Accepted
  }

  // ── The nonce ledger ──────────────────────────────────────────────────

  datatype Entry = Entry(nonce: string, ts: int)

  datatype State = State(entries: seq<Entry>, nonces: set<string>, file: Option<seq<Entry>>)

  function NoncesOf(entries: seq<Entry>): set<string> {
    set e | e in entries :: e.nonce
  }

  function Recent(entries: seq<Entry>, cutoff: int): seq<Entry> {
    if entries == [] then []
    else
      var n := |entries| - 1;
      Recent(entries[..n], cutoff) + if entries[n].ts > cutoff then [entries[n]] else []
  }

  lemma {:induction false} RecentKeeps(entries: seq<Entry>, cutoff: int)
    ensures forall e :: e in Recent(entries, cutoff) <==> e in entries && e.ts > cutoff
  {
    if entries != [] {
      var n := |entries| - 1;
      RecentKeeps(entries[..n], cutoff);
      assert entries == entries[..n] + [entries[n]];
    }
  }

  /** Opening the ledger at a given time over what the file holds. */
  function Open(file: Option<seq<Entry>>, now: int): State {
    if file.None? then State([], {}, None)
    else
      var entries := Recent(file.value, now - MAX_AGE);
      State(entries, NoncesOf(entries), Some(entries))
  }

  function Record(s: State, nonce: string, stamp: int, evict: int): State {
    if nonce in s.nonces then s
    else
      var grown := s.entries + [Entry(nonce, stamp)];
      if |grown| > CAP then
        var kept := Recent(grown, evict - MAX_AGE);
        State(kept, NoncesOf(kept), Some(kept))
      else
        State(grown, s.nonces + {nonce}, Some(grown))
  }

  /** The set is the nonces of the list, and the file, once it exists, is the list. */
  predicate Consistent(s: State) {
    && s.nonces == NoncesOf(s.entries)
    && s.file == (if s.file.None? && s.entries == [] then None else Some(s.entries))
  }

  class NonceLedger {
    var entries: seq<Entry>
    var nonceSet: set<string>
    var file: Option<seq<Entry>>

    function Contents(): State
      reads this
    {
      State(entries, nonceSet, file)
    }

    constructor (onDisk: Option<seq<Entry>>, now: int)
      ensures Contents() == Open(onDisk, now)
    {
      if onDisk.Some? {
        var kept := Recent(onDisk.value, now - MAX_AGE);
        entries, nonceSet, file := kept, NoncesOf(kept), Some(kept);
      } else {
        entries, nonceSet, file := [], {}, None;
      }
    }

    method RecordIfFresh(nonce: string, stamp: int, evict: int) returns (isFresh: bool)
      modifies this
      ensures isFresh <==> nonce !in old(nonceSet)
      ensures Contents() == Record(old(Contents()), nonce, stamp, evict)
    {
      if nonce in nonceSet {
        return false;
      }
      nonceSet := nonceSet + {nonce};
      entries := entries + [Entry(nonce, stamp)];
      if |entries| > CAP {
        entries := Recent(entries, evict - MAX_AGE);
        nonceSet := {};
        var i := 0;
        while i < |entries|
          modifies this`nonceSet
          invariant 0 <= i <= |entries|
          invariant nonceSet == NoncesOf(entries[..i])
        {
          nonceSet := nonceSet + {entries[i].nonce};
          i := i + 1;
        }
        assert entries[..i] == entries;
      }
      file := Some(entries);
      return true;
    }
  }

  method VerifyPayload(env: Env, row: Row, ledger: NonceLedger, check: int, stamp: int, evict: int) returns (v: Verdict)
    modifies ledger
    ensures v == Judge(env, old(ledger.Contents()), Verify(row, check, stamp, evict))
    ensures ledger.Contents() == Next(env, old(ledger.Contents()), Verify(row, check, stamp, evict))
  {
    if row.payload.None? {
      return Unsigned;
    }
    var p := row.payload.value;
    var expected := env.hmac(row.command, row.chatId, p.ts, p.nonce);
    if p.sig != expected {
      return SigMismatch;
    }
    var tsMs := env.parse(p.ts);
    if tsMs.None? || check - tsMs.value > MAX_AGE {
      return Expired;
    }
    var isFresh := ledger.RecordIfFresh(p.nonce, stamp, evict);
    return if isFresh then Accepted else NonceReuse;
  }

  // ── Runs ──────────────────────────────────────────────────────────────

  /** A verification reads the clock for the expiry check, for the entry's stamp and for
      eviction; a restart reads it once while loading. */
  datatype Action =
    | Verify(row: Row, check: int, stamp: int, evict: int)
    | Restart(load: int)

  function Judge(env: Env, s: State, a: Action): Verdict
    requires a.Verify?
  {
    var screened := Screen(env, a.row, a.check);
    if screened != Accepted then screened
    else if a.row.payload.value.nonce in s.nonces then NonceReuse
    else Accepted
  }

  function Next(env: Env, s: State, a: Action): State {
    match a
    case Restart(load) => Open(s.file, load)
    case Verify(row, check, stamp, evict) =>
      if Screen(env, row, check) != Accepted then s else Record(s, row.payload.value.nonce, stamp, evict)
  }

  function Run(env: Env, start: State, actions: seq<Action>): State {
    if actions == [] then start
    else Next(env, Run(env, start, actions[..|actions| - 1]), actions[|actions| - 1])
  }

  function First(a: Action): int {
    if a.Verify? then a.check else a.load
  }

  function Last(a: Action): int {
    if a.Verify? then a.evict else a.load
  }

  /** The clock never runs backwards. */
  predicate Monotone(actions: seq<Action>) {
    && (forall i :: 0 <= i < |actions| && actions[i].Verify? ==>
      actions[i].check <= actions[i].stamp <= actions[i].evict)
    && (forall i, j :: 0 <= i < j < |actions| ==> Last(actions[i]) <= First(actions[j]))
  }

  predicate AcceptedAt(env: Env, start: State, actions: seq<Action>, i: nat) {
    && i < |actions|
    && actions[i].Verify?
    && Judge(env, Run(env, start, actions[..i]), actions[i]) == Accepted
  }

  function NonceAt(actions: seq<Action>, i: nat): string
    requires i < |actions| && actions[i].Verify? && actions[i].row.payload.Some?
  {
    actions[i].row.payload.value.nonce
  }

  lemma NextKeepsConsistent(env: Env, s: State, a: Action)
    requires Consistent(s)
    ensures Consistent(Next(env, s, a))
  {}

  /** Over any run of verifications, evictions and restarts the in-memory set is exactly
      the nonces of the entries, and the file holds the entries. */
  lemma {:induction false} EveryRunIsConsistent(env: Env, start: State, actions: seq<Action>)
    requires Consistent(start)
    ensures Consistent(Run(env, start, actions))
  {
    if actions != [] {
      EveryRunIsConsistent(env, start, actions[..|actions| - 1]);
      NextKeepsConsistent(env, Run(env, start, actions[..|actions| - 1]), actions[|actions| - 1]);
    }
  }

  /** The ledger still holds the nonce with a stamp no older than the given one. */
  predicate Holds(s: State, nonce: string, since: int) {
    exists e :: e in s.entries && e.nonce == nonce && e.ts >= since
  }

  lemma RecentHolds(entries: seq<Entry>, e: Entry, since: int, cutoff: int)
    requires e in entries && e.ts >= since && cutoff < since
    ensures e in Recent(entries, cutoff)
  {
    RecentKeeps(entries, cutoff);
  }

  lemma RecordHolds(s: State, e: Entry, nonce: string, stamp: int, evict: int, since: int)
    requires e in s.entries && e.ts >= since && evict < since + MAX_AGE
    ensures e in Record(s, nonce, stamp, evict).entries
  {
    var grown := s.entries + [Entry(nonce, stamp)];
    assert e in grown;
    RecentHolds(grown, e, since, evict - MAX_AGE);
  }

  lemma NextHolds(env: Env, s: State, a: Action, nonce: string, since: int)
    requires Consistent(s) && Holds(s, nonce, since)
    ensures Holds(Next(env, s, a), nonce, since) || Last(a) >= since + MAX_AGE
  {
    var e :| e in s.entries && e.nonce == nonce && e.ts >= since;
    if Last(a) < since + MAX_AGE {
      match a
      case Restart(load) => RecentHolds(s.entries, e, since, load - MAX_AGE);
      case Verify(row, check, stamp, evict) =>
        if Screen(env, row, check) == Accepted {
          RecordHolds(s, e, row.payload.value.nonce, stamp, evict, since);
        }
    }
  }

  lemma AcceptanceIsRecorded(env: Env, s: State, a: Action)
    requires a.Verify? && Judge(env, s, a) == Accepted
    ensures Holds(Next(env, s, a), a.row.payload.value.nonce, a.stamp) || Last(a) >= a.stamp + MAX_AGE
  {}

  /** The nonce is still held, or a day has passed at the last read of the clock. */
  predicate HeldOrOld(s: State, a: Action, nonce: string, since: int) {
    Holds(s, nonce, since) || Last(a) >= since + MAX_AGE
  }

  lemma StepHolds(env: Env, s: State, earlier: Action, a: Action, nonce: string, since: int)
    requires Consistent(s) && HeldOrOld(s, earlier, nonce, since) && Last(earlier) <= Last(a)
    ensures HeldOrOld(Next(env, s, a), a, nonce, since)
  {
    if Holds(s, nonce, since) {
      NextHolds(env, s, a, nonce, since);
    }
  }

  lemma RunUnfolds(env: Env, start: State, actions: seq<Action>, k: nat)
    requires 0 < k <= |actions|
    ensures Run(env, start, actions[..k]) == Next(env, Run(env, start, actions[..k - 1]), actions[k - 1])
  {
    assert actions[..k][..k - 1] == actions[..k - 1];
  }

  /** Until a day after its stamp, an accepted nonce stays in the ledger. */
  lemma {:induction false} NonceIsHeldForADay(env: Env, start: State, actions: seq<Action>, i: nat, k: nat)
    requires Consistent(start) && Monotone(actions)
    requires AcceptedAt(env, start, actions, i) && i < k <= |actions|
    ensures HeldOrOld(Run(env, start, actions[..k]), actions[k - 1], NonceAt(actions, i), actions[i].stamp)
    decreases k
  {
    var nonce, since, before := NonceAt(actions, i), actions[i].stamp, Run(env, start, actions[..k - 1]);
    RunUnfolds(env, start, actions, k);
    if k == i + 1 {
      AcceptanceIsRecorded(env, before, actions[i]);
    } else {
      NonceIsHeldForADay(env, start, actions, i, k - 1);
      EveryRunIsConsistent(env, start, actions[..k - 1]);
      ReadsAreOrdered(actions, k - 2, k - 1);
      StepHolds(env, before, actions[k - 2], actions[k - 1], nonce, since);
    }
  }

  lemma ReadsAreOrdered(actions: seq<Action>, i: nat, j: nat)
    requires Monotone(actions) && i < j < |actions|
    ensures Last(actions[i]) <= First(actions[j]) <= Last(actions[j])
  {
  }

  /** A nonce accepted twice must, the second time, carry a timestamp no earlier than the
      moment its first acceptance was recorded. */
  lemma SecondAcceptanceIsPostdated(env: Env, start: State, actions: seq<Action>, i: nat, j: nat)
    requires Consistent(start) && Monotone(actions)
    requires i < j && AcceptedAt(env, start, actions, i) && AcceptedAt(env, start, actions, j)
    requires NonceAt(actions, i) == NonceAt(actions, j)
    ensures env.parse(actions[j].row.payload.value.ts).value >= actions[i].stamp
  {
    var s := Run(env, start, actions[..j]);
    NonceIsHeldForADay(env, start, actions, i, j);
    EveryRunIsConsistent(env, start, actions[..j]);
    assert !Holds(s, NonceAt(actions, i), actions[i].stamp);
    ReadsAreOrdered(actions, j - 1, j);
  }

  /** Some run from the given ledger accepts the row twice, recording it first at the given time. */
  ghost predicate CanBeReplayed(env: Env, start: State, row: Row, stamp: int) {
    exists actions, i, j :: Replay(env, start, row, stamp, actions, i, j)
  }

  predicate Replay(env: Env, start: State, row: Row, stamp: int, actions: seq<Action>, i: nat, j: nat) {
    && Monotone(actions)
    && i < j
    && AcceptedAt(env, start, actions, i) && actions[i].row == row && actions[i].stamp == stamp
    && AcceptedAt(env, start, actions, j) && actions[j].row == row
  }

  /** Signed with the key and carrying a readable date. */
  predicate Genuine(env: Env, row: Row) {
    && row.payload.Some?
    && var p := row.payload.value;
       p.sig == env.hmac(row.command, row.chatId, p.ts, p.nonce) && env.parse(p.ts).Some?
  }

  const EMPTY: State := State([], {}, None)

  /** At-most-once acceptance, exactly: a genuine payload recorded at a given time can be
      accepted again, by some run of records, evictions and restarts, if and only if its
      timestamp is not strictly earlier than that time. */
  lemma ReplayableIffPostdated(env: Env, row: Row, stamp: int)
    requires Genuine(env, row)
    ensures CanBeReplayed(env, EMPTY, row, stamp) <==> env.parse(row.payload.value.ts).value >= stamp
  {
    if env.parse(row.payload.value.ts).value >= stamp {
      RestartForgets(env, row, stamp);
    }
    if CanBeReplayed(env, EMPTY, row, stamp) {
      var actions, i, j :| Replay(env, EMPTY, row, stamp, actions, i, j);
      SecondAcceptanceIsPostdated(env, EMPTY, actions, i, j);
    }
  }

  /** Restarting exactly a day after the stamp drops the entry while the payload is still in date. */
  lemma RestartForgets(env: Env, row: Row, stamp: int)
    requires Genuine(env, row)
    requires env.parse(row.payload.value.ts).value >= stamp
    ensures CanBeReplayed(env, EMPTY, row, stamp)
  {
    var later := stamp + MAX_AGE;
    var first, restart := Verify(row, stamp, stamp, stamp), Restart(later);
    var again := Verify(row, later, later, later);
    var actions := [first, restart, again];
    var recorded := [Entry(row.payload.value.nonce, stamp)];
    assert actions[..0] == [] && actions[..1] == [first] && actions[..2] == [first, restart];
    assert actions[..1][..0] == [] && actions[..2][..1] == [first];
    assert Run(env, EMPTY, [first]) == Next(env, EMPTY, first);
    assert EMPTY.entries + recorded == recorded;
    assert Next(env, EMPTY, first).file == Some(recorded);
    assert recorded[..0] == [] && Recent(recorded, later - MAX_AGE) == [];
    assert Run(env, EMPTY, actions[..2]) == State([], {}, Some([]));
    assert Replay(env, EMPTY, row, stamp, actions, 0, 2);
  }
}
