/**
 * What a failing write of the alert state costs (src/atlas/autonomy-loop.ts): exactly
 * which patterns of paused and unstored ticks keep every signal's failures and recoveries
 * alternating, and which keep the stored state in step with them.
 */
module AlertStorage {
  import opened Common
  import opened Alerts

  /** Whether a tick is paused, and whether its state could be written. */
  datatype Slot = Slot(paused: bool, persists: bool)

  predicate Unstored(slot: Slot) {
    !slot.paused && !slot.persists
  }

  predicate Follows(ticks: seq<Tick>, pattern: seq<Slot>) {
    && |ticks| == |pattern|
    && forall k :: 0 <= k < |ticks| ==> Slot(ticks[k].paused, ticks[k].persists) == pattern[k]
  }

  /** After an unstored tick nothing is observed any more. */
  predicate OnlyTheLastIsUnstored(pattern: seq<Slot>) {
    forall k, j :: 0 <= k < j < |pattern| && Unstored(pattern[k]) ==> pattern[j].paused
  }

  function TurnsAbout(ticks: seq<Tick>, id: string): seq<Transition> {
    Turns(About(EventLog(map[], ticks), id))
  }

  /** Whatever is read, every signal's failures and recoveries alternate. */
  ghost predicate AlwaysAlternates(pattern: seq<Slot>) {
    forall ticks, id :: Follows(ticks, pattern) && AllDistinct(ticks) ==> Alternates(TurnsAbout(ticks, id))
  }

  /** Whatever is read, a signal is stored as failing exactly when it was announced so last. */
  ghost predicate AlwaysTracks(pattern: seq<Slot>) {
    forall ticks, id :: Follows(ticks, pattern) && AllDistinct(ticks) ==>
      Tracks(About(EventLog(map[], ticks), id), Lookup(StateAfter(map[], ticks), id))
  }

  // ── Enough ────────────────────────────────────────────────────────────

  lemma StoredBefore(ticks: seq<Tick>, pattern: seq<Slot>)
    requires Follows(ticks, pattern) && OnlyTheLastIsUnstored(pattern)
    requires ticks != [] && !ticks[|ticks| - 1].paused
    ensures AllStored(ticks[..|ticks| - 1])
  {
    forall k | 0 <= k < |ticks| - 1 ensures ticks[k].paused || ticks[k].persists {
      assert Slot(ticks[k].paused, ticks[k].persists) == pattern[k];
      assert Slot(ticks[|ticks| - 1].paused, ticks[|ticks| - 1].persists) == pattern[|ticks| - 1];
      assert !Unstored(pattern[k]);
    }
  }

  lemma LastTick(ticks: seq<Tick>, id: string)
    requires AllDistinct(ticks) && ticks != []
    ensures var n := |ticks| - 1;
            About(EventLog(map[], ticks), id) ==
            About(EventLog(map[], ticks[..n]), id)
              + OwnEvents(Lookup(StateAfter(map[], ticks[..n]), id), Own(ticks[n], id))
  {
    var n := |ticks| - 1;
    TickIsOwn(StateAfter(map[], ticks[..n]), ticks[n], id);
    AboutDistributes(EventLog(map[], ticks[..n]), TickEvents(StateAfter(map[], ticks[..n]), ticks[n]), id);
  }

  lemma OneMoreAlternates(events: seq<Event>, record: Option<Record>, own: Option<Reading>)
    requires Tracks(events, record)
    ensures Alternates(Turns(events + OwnEvents(record, own)))
  {
    OneReadingKeepsTrack(events, record, own);
  }

  lemma {:induction false} AlternatesUpToTheUnstored(ticks: seq<Tick>, pattern: seq<Slot>, id: string)
    requires Follows(ticks, pattern) && AllDistinct(ticks) && OnlyTheLastIsUnstored(pattern)
    ensures Alternates(TurnsAbout(ticks, id))
    decreases |ticks|
  {
    if ticks != [] {
      var n := |ticks| - 1;
      var log, record := About(EventLog(map[], ticks[..n]), id), Lookup(StateAfter(map[], ticks[..n]), id);
      LastTick(ticks, id);
      if ticks[n].paused {
        AlternatesUpToTheUnstored(ticks[..n], pattern[..n], id);
        assert log + [] == log;
      } else {
        StoredBefore(ticks, pattern);
        TurnsFollowTheState(ticks[..n], id);
        OneMoreAlternates(log, record, Own(ticks[n], id));
      }
    }
  }

  // ── And necessary ─────────────────────────────────────────────────────

  /** Ticks with no checks: the repositories read cleanly before tick k, and fail from then on. */
  function Outage(pattern: seq<Slot>, k: nat): seq<Tick> {
    seq(|pattern|, i requires 0 <= i < |pattern| => Tick(pattern[i].paused, Signals([], i < k), pattern[i].persists))
  }

  predicate IsOutage(ticks: seq<Tick>, pattern: seq<Slot>, k: nat) {
    && |ticks| == |pattern|
    && forall i :: 0 <= i < |ticks| ==> ticks[i] == Tick(pattern[i].paused, Signals([], i < k), pattern[i].persists)
  }

  const REPO := "repo-watch"

  lemma RepoIsOwn(t: Tick)
    requires t.signals.checks == []
    ensures Own(t, REPO) == if t.paused then None else Some(RepoReading(t.signals.repoOk))
  {
    assert Readings(t.signals) == [RepoReading(t.signals.repoOk)];
    assert Readings(t.signals)[0].id == REPO;
  }

  /** One more tick of the outage. */
  lemma OutageStep(ticks: seq<Tick>, pattern: seq<Slot>, k: nat, n: nat)
    requires IsOutage(ticks, pattern, k) && n < |pattern|
    ensures var s, own := StateAfter(map[], ticks[..n]), Own(ticks[n], REPO);
            && About(EventLog(map[], ticks[..n + 1]), REPO) ==
               About(EventLog(map[], ticks[..n]), REPO) + OwnEvents(Lookup(s, REPO), own)
            && Lookup(StateAfter(map[], ticks[..n + 1]), REPO) ==
               (if own.None? || !ticks[n].persists then Lookup(s, REPO) else Some(RecordFor(own.value)))
            && own == (if pattern[n].paused then None else Some(RepoReading(n < k)))
  {
    var s := StateAfter(map[], ticks[..n]);
    assert ticks[..n + 1][..n] == ticks[..n];
    RepoIsOwn(ticks[n]);
    TickIsOwn(s, ticks[n], REPO);
    AboutDistributes(EventLog(map[], ticks[..n]), TickEvents(s, ticks[n]), REPO);
  }

  lemma AlarmAddsATurn(log: seq<Event>, record: Option<Record>)
    requires !IsFailing(record)
    ensures Turns(log + OwnEvents(record, Some(RepoReading(false)))) == Turns(log) + [NewFailure]
  {
    var alarm := OwnEvents(record, Some(RepoReading(false)));
    assert alarm == [alarm[0]];
    TurnsAfterOne(log, alarm[0]);
  }

  /** What has been announced about the repositories after the first `n` ticks. */
  function Announced(ticks: seq<Tick>): nat -> seq<Transition> {
    (n: nat) => if n <= |ticks| then TurnsAbout(ticks[..n], REPO) else []
  }

  /** Whether they are stored as failing then. */
  function StoredFailing(ticks: seq<Tick>): nat -> bool {
    (n: nat) => n <= |ticks| && IsFailing(Lookup(StateAfter(map[], ticks[..n]), REPO))
  }

  /** An outage, tick by tick, as long as the failure is not stored. */
  ghost predicate UnfoldsUnstored(pattern: seq<Slot>, k: nat, announced: nat -> seq<Transition>, failing: nat -> bool) {
    && announced(0) == [] && !failing(0)
    && forall n: nat :: n < |pattern| && !failing(n) ==>
         OutageTurnIs(pattern[n].paused, Unstored(pattern[n]), n < k, announced(n), announced(n + 1), failing(n + 1))
  }

  predicate OutageTurnIs(
    paused: bool, unstored: bool, early: bool,
    before: seq<Transition>, after: seq<Transition>, failingAfter: bool)
  {
    if paused || early then after == before && !failingAfter
    else after == before + [NewFailure] && (unstored ==> !failingAfter)
  }

  lemma OutageTurn(ticks: seq<Tick>, pattern: seq<Slot>, k: nat, n: nat)
    requires IsOutage(ticks, pattern, k) && n < |pattern|
    requires !IsFailing(Lookup(StateAfter(map[], ticks[..n]), REPO))
    ensures OutageTurnIs(
              pattern[n].paused, Unstored(pattern[n]), n < k, TurnsAbout(ticks[..n], REPO),
              TurnsAbout(ticks[..n + 1], REPO),
              IsFailing(Lookup(StateAfter(map[], ticks[..n + 1]), REPO)))
  {
    var log, record := About(EventLog(map[], ticks[..n]), REPO), Lookup(StateAfter(map[], ticks[..n]), REPO);
    OutageStep(ticks, pattern, k, n);
    if pattern[n].paused || n < k {
      assert OwnEvents(record, Own(ticks[n], REPO)) == [];
      assert log + [] == log;
    } else {
      AlarmAddsATurn(log, record);
    }
  }

  lemma AnnouncedTurn(ticks: seq<Tick>, pattern: seq<Slot>, k: nat, n: nat)
    requires IsOutage(ticks, pattern, k) && n < |pattern| && !StoredFailing(ticks)(n)
    ensures OutageTurnIs(pattern[n].paused, Unstored(pattern[n]), n < k,
                         Announced(ticks)(n), Announced(ticks)(n + 1), StoredFailing(ticks)(n + 1))
  {
    OutageTurn(ticks, pattern, k, n);
  }

  lemma OutageUnfolds(ticks: seq<Tick>, pattern: seq<Slot>, k: nat)
    requires IsOutage(ticks, pattern, k)
    ensures UnfoldsUnstored(pattern, k, Announced(ticks), StoredFailing(ticks))
  {
    var announced, failing := Announced(ticks), StoredFailing(ticks);
    assert ticks[..0] == [];
    assert announced(0) == [] && !failing(0);
    forall n: nat | n < |pattern| && !failing(n)
      ensures OutageTurnIs(pattern[n].paused, Unstored(pattern[n]), n < k, announced(n),
        announced(n + 1), failing(n + 1))
    {
      AnnouncedTurn(ticks, pattern, k, n);
    }
  }

  /** Before the outage nothing is announced; the unstored tick announces the failure and forgets it. */
  lemma {:induction false} ForgottenAlarm(
    pattern: seq<Slot>, k: nat, n: nat, announced: nat -> seq<Transition>, failing: nat -> bool)
    requires UnfoldsUnstored(pattern, k, announced, failing) && k < |pattern| && n <= |pattern| && Unstored(pattern[k])
    requires forall i :: k < i < n ==> pattern[i].paused
    ensures announced(n) == (if n <= k then [] else [NewFailure]) && !failing(n)
  {
    if n > 0 {
      ForgottenAlarm(pattern, k, n - 1, announced, failing);
    }
  }

  lemma SecondAlarm(pattern: seq<Slot>, k: nat, j: nat, announced: nat -> seq<Transition>, failing: nat -> bool)
    requires UnfoldsUnstored(pattern, k, announced, failing) && k < j < |pattern| && Unstored(pattern[k])
    requires !pattern[j].paused && forall i :: k < i < j ==> pattern[i].paused
    ensures announced(j + 1) == [NewFailure] + [NewFailure]
  {
    ForgottenAlarm(pattern, k, j, announced, failing);
  }

  lemma OutageIsAllowed(pattern: seq<Slot>, k: nat)
    ensures IsOutage(Outage(pattern, k), pattern, k)
    ensures Follows(Outage(pattern, k), pattern) && AllDistinct(Outage(pattern, k))
  {
  }

  /** So the next tick that observes anything announces the failure once more. */
  lemma TheAlarmIsRepeated(ticks: seq<Tick>, pattern: seq<Slot>, k: nat, j: nat)
    requires IsOutage(ticks, pattern, k) && k < j < |pattern| && Unstored(pattern[k]) && !pattern[j].paused
    requires forall i :: k < i < j ==> pattern[i].paused
    ensures !Alternates(TurnsAbout(ticks, REPO))
  {
    OutageUnfolds(ticks, pattern, k);
    SecondAlarm(pattern, k, j, Announced(ticks), StoredFailing(ticks));
    TwoFailuresAreNotUndone(ticks, j + 1);
  }

  lemma TwoFailuresDoNotAlternate(early: seq<Transition>, turns: seq<Transition>)
    requires early == [NewFailure] + [NewFailure] && early <= turns
    ensures !Alternates(turns)
  {
    assert turns[0] == early[0] && turns[1] == early[1];
  }

  lemma TwoFailuresAreNotUndone(ticks: seq<Tick>, n: nat)
    requires n <= |ticks| && Announced(ticks)(n) == [NewFailure] + [NewFailure]
    ensures !Alternates(TurnsAbout(ticks, REPO))
  {
    TurnsOnlyGrow(ticks, n, REPO);
    TwoFailuresDoNotAlternate(TurnsAbout(ticks[..n], REPO), TurnsAbout(ticks, REPO));
  }

  lemma {:induction false} TurnsOnlyGrow(ticks: seq<Tick>, n: nat, id: string)
    requires n <= |ticks|
    ensures TurnsAbout(ticks[..n], id) <= TurnsAbout(ticks, id)
    decreases |ticks|
  {
    if n == |ticks| {
      assert ticks[..n] == ticks;
    } else {
      var m := |ticks| - 1;
      assert ticks[..m][..n] == ticks[..n];
      TurnsOnlyGrow(ticks[..m], n, id);
      var added := TickEvents(StateAfter(map[], ticks[..m]), ticks[m]);
      AboutDistributes(EventLog(map[], ticks[..m]), added, id);
      TurnsDistribute(About(EventLog(map[], ticks[..m]), id), About(added, id));
    }
  }

  lemma {:induction false} TurnsDistribute(one: seq<Event>, other: seq<Event>)
    ensures Turns(one + other) == Turns(one) + Turns(other)
    decreases |other|
  {
    if other == [] {
      assert one + other == one;
    } else {
      var n := |other| - 1;
      TurnsDistribute(one, other[..n]);
      assert (one + other)[..|one + other| - 1] == one + other[..n];
    }
  }

  lemma FirstObservedAfter(pattern: seq<Slot>, k: nat, j: nat) returns (i: nat)
    requires k < j < |pattern| && !pattern[j].paused
    ensures k < i <= j && !pattern[i].paused && forall h :: k < h < i ==> pattern[h].paused
  {
    i := k + 1;
    while pattern[i].paused
      invariant k < i <= j && forall h :: k < h < i ==> pattern[h].paused
      decreases j - i
    {
      i := i + 1;
    }
  }

  /** Alternation, exactly: it holds for all readings if and only if nothing is observed
      after a tick whose state could not be stored. */
  lemma AlternationIffOnlyTheLastIsUnstored(pattern: seq<Slot>)
    ensures AlwaysAlternates(pattern) <==> OnlyTheLastIsUnstored(pattern)
  {
    if OnlyTheLastIsUnstored(pattern) {
      forall ticks, id | Follows(ticks, pattern) && AllDistinct(ticks) ensures Alternates(TurnsAbout(ticks, id)) {
        AlternatesUpToTheUnstored(ticks, pattern, id);
      }
    } else {
      var k, j :| 0 <= k < j < |pattern| && Unstored(pattern[k]) && !pattern[j].paused;
      var i := FirstObservedAfter(pattern, k, j);
      OutageIsAllowed(pattern, k);
      TheAlarmIsRepeated(Outage(pattern, k), pattern, k, i);
    }
  }

  /** The counting law, exactly: stored state and announcements agree for all readings if
      and only if every tick that observed anything was stored. */
  lemma TrackingIffEverythingIsStored(pattern: seq<Slot>)
    ensures AlwaysTracks(pattern) <==> forall k :: 0 <= k < |pattern| ==> !Unstored(pattern[k])
  {
    if forall k :: 0 <= k < |pattern| ==> !Unstored(pattern[k]) {
      forall ticks: seq<Tick>, id: string | Follows(ticks, pattern) && AllDistinct(ticks)
        ensures Tracks(About(EventLog(map[], ticks), id), Lookup(StateAfter(map[], ticks), id))
      {
        forall k | 0 <= k < |ticks| ensures ticks[k].paused || ticks[k].persists {
          assert !Unstored(pattern[k]);
        }
        TurnsFollowTheState(ticks, id);
      }
    } else {
      var k :| 0 <= k < |pattern| && Unstored(pattern[k]);
      UnstoredBreaksTracking(pattern, k);
    }
  }

  lemma AtTheEnd(ticks: seq<Tick>)
    ensures Announced(ticks)(|ticks|) == TurnsAbout(ticks, REPO)
    ensures StoredFailing(ticks)(|ticks|) == IsFailing(Lookup(StateAfter(map[], ticks), REPO))
  {
    assert ticks[..|ticks|] == ticks;
  }

  /** An alarm that was announced once and is not stored: one turn, and not failing. */
  lemma OneTurnUntracked(events: seq<Event>, record: Option<Record>)
    requires Turns(events) == [NewFailure] && !IsFailing(record)
    ensures !Tracks(events, record)
  {
    assert |Turns(events)| % 2 == 1;
  }

  lemma ForgottenForGood(ticks: seq<Tick>, pattern: seq<Slot>, k: nat)
    requires IsOutage(ticks, pattern, k) && k < |pattern| && Unstored(pattern[k])
    requires forall j :: k < j < |pattern| ==> pattern[j].paused
    ensures !Tracks(About(EventLog(map[], ticks), REPO), Lookup(StateAfter(map[], ticks), REPO))
  {
    OutageUnfolds(ticks, pattern, k);
    ForgottenAlarm(pattern, k, |pattern|, Announced(ticks), StoredFailing(ticks));
    AtTheEnd(ticks);
    OneTurnUntracked(About(EventLog(map[], ticks), REPO), Lookup(StateAfter(map[], ticks), REPO));
  }

  lemma RepeatedIsUntracked(ticks: seq<Tick>)
    requires !Alternates(TurnsAbout(ticks, REPO))
    ensures !Tracks(About(EventLog(map[], ticks), REPO), Lookup(StateAfter(map[], ticks), REPO))
  {}

  lemma UnstoredBreaksTracking(pattern: seq<Slot>, k: nat)
    requires k < |pattern| && Unstored(pattern[k])
    ensures !AlwaysTracks(pattern)
  {
    var ticks := Outage(pattern, k);
    OutageIsAllowed(pattern, k);
    if j :| k < j < |pattern| && !pattern[j].paused {
      var i := FirstObservedAfter(pattern, k, j);
      TheAlarmIsRepeated(ticks, pattern, k, i);
      RepeatedIsUntracked(ticks);
    } else {
      ForgottenForGood(ticks, pattern, k);
    }
  }
}
