/**
 * Per-signal alerting of the autonomy loop (src/atlas/autonomy-loop.ts): readings,
 * transition detection and the persisted alert state.
 */
module Alerts {
  import opened Common

  datatype Check = Check(name: string, ok: bool, detail: string, ageHours: Option<real>)

  datatype Signals = Signals(checks: seq<Check>, repoOk: bool)

  datatype Reading = Reading(id: string, ok: bool, detail: string, band: Option<string>)

  datatype SignalState = Healthy | Failing | Unknown

  datatype Record = Record(state: SignalState, band: Option<string>)

  type AlertState = map<string, Record>

  datatype Transition = NewFailure | UnchangedFailure | Escalation | Recovery | NoChange

  datatype Event = Event(id: string, transition: Transition, ok: bool, detail: string, band: Option<string>)

  // ── Readings ──────────────────────────────────────────────────────────

  function HeartbeatBand(check: Check): Option<string> {
    if check.ok then None
    else if check.ageHours.None? then Some("unknown")
    else if check.ageHours.value >= 168.0 then Some("severe")
    else if check.ageHours.value >= 72.0 then Some("moderate")
    else Some("mild")
  }

  function CheckReading(check: Check): Reading {
    if check.name == "heartbeat" then Reading("heartbeat", check.ok, check.detail, HeartbeatBand(check))
    else Reading("health:" + check.name, check.ok, check.detail, None)
  }

  function RepoReading(repoOk: bool): Reading {
    Reading("repo-watch", repoOk,
            if repoOk then "all watched repos read cleanly" else "git read failed for at least one watched repo",
            None)
  }

  function Readings(signals: Signals): seq<Reading> {
    seq(|signals.checks|, i requires 0 <= i < |signals.checks| => CheckReading(signals.checks[i]))
    + [RepoReading(signals.repoOk)]
  }

  predicate DistinctNames(signals: Signals) {
    forall i, j :: 0 <= i < j < |signals.checks| ==> signals.checks[i].name != signals.checks[j].name
  }

  predicate DistinctReadings(readings: seq<Reading>) {
    forall i, j :: 0 <= i < j < |readings| ==> readings[i].id != readings[j].id
  }

  function SignalId(name: string): string {
    if name == "heartbeat" then "heartbeat" else "health:" + name
  }

  lemma IdsDiffer(one: string, other: string)
    requires one != other
    ensures SignalId(one) != SignalId(other)
  {
    if one == "heartbeat" {
      assert SignalId(one)[3] == 'r' && SignalId(other)[3] == 'l';
    } else if other == "heartbeat" {
      assert SignalId(one)[3] == 'l' && SignalId(other)[3] == 'r';
    } else {
      assert SignalId(one)[7..] == one && SignalId(other)[7..] == other;
    }
  }

  lemma RepoIdDiffers(name: string)
    ensures SignalId(name) != "repo-watch"
  {
    assert SignalId(name)[0] == 'h';
  }

  /** Checks with different names never share a signal id, nor does any with the repo watch. */
  lemma DistinctNamesGiveDistinctIds(signals: Signals)
    requires DistinctNames(signals)
    ensures DistinctReadings(Readings(signals))
  {
    var readings := Readings(signals);
    forall i | 0 <= i < |signals.checks| ensures readings[i].id == SignalId(signals.checks[i].name) {
      assert readings[i] == CheckReading(signals.checks[i]);
    }
    forall i, j | 0 <= i < j < |readings| ensures readings[i].id != readings[j].id {
      if j < |signals.checks| {
        IdsDiffer(signals.checks[i].name, signals.checks[j].name);
      } else {
        RepoIdDiffers(signals.checks[i].name);
      }
    }
  }

  method CurrentReadings(signals: Signals) returns (readings: seq<Reading>)
    ensures readings == Readings(signals)
  {
    readings := [];
    for i := 0 to |signals.checks|
      invariant |readings| == i
      invariant forall k :: 0 <= k < i ==> readings[k] == CheckReading(signals.checks[k])
    {
      var check := signals.checks[i];
      readings := readings + [CheckReading(check)];
    }
    readings := readings + [RepoReading(signals.repoOk)];
  }

  // ── One tick ──────────────────────────────────────────────────────────

  function Severity(band: string): nat {
    if band == "mild" then 1 else if band == "moderate" then 2 else if band == "severe" then 3 else 0
  }

  function Lookup(state: AlertState, id: string): Option<Record> {
    if id in state then Some(state[id]) else None
  }

  predicate IsFailing(record: Option<Record>) {
    record.Some? && record.value.state == Failing
  }

  function DetectTransition(prev: Option<Record>, ok: bool, band: Option<string>): Transition {
    if ok then
      if IsFailing(prev) then Recovery else NoChange
    else if !IsFailing(prev) then NewFailure
    else if band.Some? && prev.value.band.Some? && Severity(band.value) > Severity(prev.value.band.value)
      then Escalation
    else UnchangedFailure
  }

  predicate Notable(t: Transition) {
    t != NoChange && t != UnchangedFailure
  }

  function EventFor(prev: Option<Record>, r: Reading): seq<Event> {
    var t := DetectTransition(prev, r.ok, r.band);
    if Notable(t) then [Event(r.id, t, r.ok, r.detail, r.band)] else []
  }

  function RecordFor(r: Reading): Record {
    Record(if r.ok then Healthy else Failing, if r.ok then None else r.band)
  }

  function EventsOf(readings: seq<Reading>, state: AlertState): seq<Event> {
    if readings == [] then []
    else
      var n := |readings| - 1;
      EventsOf(readings[..n], state) + EventFor(Lookup(state, readings[n].id), readings[n])
  }

  function Refreshed(readings: seq<Reading>, state: AlertState): AlertState {
    if readings == [] then state
    else
      var n := |readings| - 1;
      Refreshed(readings[..n], state)[readings[n].id := RecordFor(readings[n])]
  }

  lemma NextReading(readings: seq<Reading>, state: AlertState, i: nat)
    requires i < |readings|
    ensures EventsOf(readings[..i + 1], state) ==
            EventsOf(readings[..i], state) + EventFor(Lookup(state, readings[i].id), readings[i])
    ensures Refreshed(readings[..i + 1], state) ==
            Refreshed(readings[..i], state)[readings[i].id := RecordFor(readings[i])]
  {
    assert readings[..i + 1][..i] == readings[..i];
  }

  method ComputeSignalEvents(signals: Signals, state: AlertState) returns (events: seq<Event>, next: AlertState)
    ensures events == EventsOf(Readings(signals), state)
    ensures next == Refreshed(Readings(signals), state)
  {
    var readings := CurrentReadings(signals);
    events, next := JudgeReadings(readings, state);
  }

  method JudgeReadings(readings: seq<Reading>, state: AlertState) returns (events: seq<Event>, next: AlertState)
    ensures events == EventsOf(readings, state)
    ensures next == Refreshed(readings, state)
  {
    next := state;
    events := [];
    var i := 0;
    while i < |readings|
      invariant 0 <= i <= |readings|
      invariant events == EventsOf(readings[..i], state)
      invariant next == Refreshed(readings[..i], state)
    {
      var r := readings[i];
      NextReading(readings, state, i);
      var transition := DetectTransition(Lookup(state, r.id), r.ok, r.band);
      if transition != NoChange && transition != UnchangedFailure {
        events := events + [Event(r.id, transition, r.ok, r.detail, r.band)];
      }
      next := next[r.id := Record(if r.ok then Healthy else Failing, if r.ok then None else r.band)];
      i := i + 1;
    }
    assert readings[..i] == readings;
  }

  // ── Runs of ticks ─────────────────────────────────────────────────────

  /** A tick is skipped while control is paused; writing the state file may fail. */
  datatype Tick = Tick(paused: bool, signals: Signals, persists: bool)

  function TickEvents(state: AlertState, t: Tick): seq<Event> {
    if t.paused then [] else EventsOf(Readings(t.signals), state)
  }

  function TickState(state: AlertState, t: Tick): AlertState {
    if t.paused || !t.persists then state else Refreshed(Readings(t.signals), state)
  }

  class AlertLoop {
    var stored: AlertState

    constructor ()
      ensures stored == map[]
    {
      stored := map[];
    }

    method RunTick(t: Tick) returns (events: seq<Event>)
      modifies this
      ensures events == TickEvents(old(stored), t)
      ensures stored == TickState(old(stored), t)
    {
      if t.paused {
        return [];
      }
      var next: AlertState;
      events, next := ComputeSignalEvents(t.signals, stored);
      if t.persists {
        stored := next;
      }
    }
  }

  function StateAfter(start: AlertState, ticks: seq<Tick>): AlertState {
    if ticks == [] then start
    else TickState(StateAfter(start, ticks[..|ticks| - 1]), ticks[|ticks| - 1])
  }

  /** All events of a run, oldest first. */
  function EventLog(start: AlertState, ticks: seq<Tick>): seq<Event> {
    if ticks == [] then []
    else
      var n := |ticks| - 1;
      EventLog(start, ticks[..n]) + TickEvents(StateAfter(start, ticks[..n]), ticks[n])
  }

  function About(events: seq<Event>, id: string): seq<Event> {
    if events == [] then []
    else
      var n := |events| - 1;
      About(events[..n], id) + if events[n].id == id then [events[n]] else []
  }

  lemma {:induction false} AboutDistributes(one: seq<Event>, other: seq<Event>, id: string)
    ensures About(one + other, id) == About(one, id) + About(other, id)
    decreases |other|
  {
    if other == [] {
      assert one + other == one;
    } else {
      var n := |other| - 1;
      AboutDistributes(one, other[..n], id);
      assert (one + other)[..|one + other| - 1] == one + other[..n];
    }
  }

  /** The reading a list holds for one signal. */
  function ReadingIn(readings: seq<Reading>, id: string): Option<Reading> {
    if readings == [] then None
    else
      var n := |readings| - 1;
      if readings[n].id == id then Some(readings[n]) else ReadingIn(readings[..n], id)
  }

  lemma {:induction false} OwnEventsOnly(readings: seq<Reading>, state: AlertState, id: string)
    requires DistinctReadings(readings)
    ensures var own := ReadingIn(readings, id);
            About(EventsOf(readings, state), id) == if own.None? then [] else EventFor(Lookup(state, id), own.value)
  {
    if readings != [] {
      var n := |readings| - 1;
      OwnEventsOnly(readings[..n], state, id);
      NoReadingOf(readings, n);
      var last := EventFor(Lookup(state, readings[n].id), readings[n]);
      AboutDistributes(EventsOf(readings[..n], state), last, id);
      AboutOne(last, readings[n].id, id);
    }
  }

  lemma AboutOne(events: seq<Event>, own: string, id: string)
    requires |events| <= 1 && (events != [] ==> events[0].id == own)
    ensures About(events, id) == if own == id then events else []
  {
    assert events != [] ==> events[..0] == [] && events == [events[0]];
  }

  lemma NoReadingOf(readings: seq<Reading>, n: nat)
    requires DistinctReadings(readings) && n < |readings|
    ensures ReadingIn(readings[..n], readings[n].id).None?
  {
    NoReadingIn(readings[..n], readings[n].id);
  }

  lemma {:induction false} NoReadingIn(readings: seq<Reading>, id: string)
    requires forall i :: 0 <= i < |readings| ==> readings[i].id != id
    ensures ReadingIn(readings, id).None?
  {
    if readings != [] {
      NoReadingIn(readings[..|readings| - 1], id);
    }
  }

  lemma {:induction false} OwnRecordOnly(readings: seq<Reading>, state: AlertState, id: string)
    ensures var own := ReadingIn(readings, id);
            Lookup(Refreshed(readings, state), id) ==
            if own.None? then Lookup(state, id) else Some(RecordFor(own.value))
  {
    if readings != [] {
      OwnRecordOnly(readings[..|readings| - 1], state, id);
    }
  }

  /** What one tick tells one signal: nothing while paused or when it is not among the readings. */
  function Own(t: Tick, id: string): Option<Reading> {
    if t.paused then None else ReadingIn(Readings(t.signals), id)
  }

  lemma TickIsOwn(state: AlertState, t: Tick, id: string)
    requires DistinctNames(t.signals)
    ensures var own := Own(t, id);
            && About(TickEvents(state, t), id) ==
               (if own.None? then [] else EventFor(Lookup(state, id), own.value))
            && Lookup(TickState(state, t), id) ==
               (if own.None? || !t.persists then Lookup(state, id) else Some(RecordFor(own.value)))
  {
    DistinctNamesGiveDistinctIds(t.signals);
    OwnEventsOnly(Readings(t.signals), state, id);
    OwnRecordOnly(Readings(t.signals), state, id);
  }

  predicate AllDistinct(ticks: seq<Tick>) {
    forall k :: 0 <= k < |ticks| ==> DistinctNames(ticks[k].signals)
  }

  predicate SameFor(a: Tick, b: Tick, id: string) {
    Own(a, id) == Own(b, id) && a.persists == b.persists
  }

  /** Non-interference: two runs that agree on one signal, whatever they say about the
      others and whatever else is stored, give it the same events and the same record. */
  lemma {:induction false} OtherSignalsDoNotInterfere(
    startA: AlertState, a: seq<Tick>, startB: AlertState, b: seq<Tick>, id: string)
    requires AllDistinct(a) && AllDistinct(b) && |a| == |b|
    requires Lookup(startA, id) == Lookup(startB, id)
    requires forall k :: 0 <= k < |a| ==> SameFor(a[k], b[k], id)
    ensures About(EventLog(startA, a), id) == About(EventLog(startB, b), id)
    ensures Lookup(StateAfter(startA, a), id) == Lookup(StateAfter(startB, b), id)
    decreases |a|
  {
    if a != [] {
      var n := |a| - 1;
      OtherSignalsDoNotInterfere(startA, a[..n], startB, b[..n], id);
      assert SameFor(a[n], b[n], id);
      var sa, sb := StateAfter(startA, a[..n]), StateAfter(startB, b[..n]);
      TickIsOwn(sa, a[n], id);
      TickIsOwn(sb, b[n], id);
      AboutDistributes(EventLog(startA, a[..n]), TickEvents(sa, a[n]), id);
      AboutDistributes(EventLog(startB, b[..n]), TickEvents(sb, b[n]), id);
    }
  }

  // ── Alternation ───────────────────────────────────────────────────────

  /** The new failures and recoveries of a list of events, in order. */
  function Turns(events: seq<Event>): seq<Transition> {
    if events == [] then []
    else
      var n := |events| - 1;
      Turns(events[..n]) + if events[n].transition.Escalation? then [] else [events[n].transition]
  }

  /** New failure, recovery, new failure, and so on. */
  predicate Alternates(turns: seq<Transition>) {
    forall i :: 0 <= i < |turns| ==> turns[i] == if i % 2 == 0 then NewFailure else Recovery
  }

  function Count(turns: seq<Transition>, t: Transition): nat {
    if turns == [] then 0
    else Count(turns[..|turns| - 1], t) + if turns[|turns| - 1] == t then 1 else 0
  }

  lemma {:induction false} AlternationCounts(turns: seq<Transition>)
    requires Alternates(turns)
    ensures Count(turns, NewFailure) == Count(turns, Recovery) + |turns| % 2
  {
    if turns != [] {
      AlternationCounts(turns[..|turns| - 1]);
    }
  }

  lemma TurnsAfterOne(events: seq<Event>, e: Event)
    ensures Turns(events + [e]) == Turns(events) + if e.transition.Escalation? then [] else [e.transition]
  {
    assert (events + [e])[..|events|] == events;
  }

  /** The record a signal has after one reading of its own, if it had one. */
  function Refresh(record: Option<Record>, own: Option<Reading>): Option<Record> {
    if own.None? then record else Some(RecordFor(own.value))
  }

  function OwnEvents(record: Option<Record>, own: Option<Reading>): seq<Event> {
    if own.None? then [] else EventFor(record, own.value)
  }

  /** The turns of one signal alternate and tell whether it is failing. */
  predicate Tracks(events: seq<Event>, record: Option<Record>) {
    && Alternates(Turns(events))
    && (IsFailing(record) <==> |Turns(events)| % 2 == 1)
  }

  lemma OneReadingKeepsTrack(events: seq<Event>, record: Option<Record>, own: Option<Reading>)
    requires Tracks(events, record)
    ensures Tracks(events + OwnEvents(record, own), Refresh(record, own))
  {
    var added := OwnEvents(record, own);
    if added == [] {
      assert events + added == events;
    } else {
      TurnsAfterOne(events, added[0]);
      assert added == [added[0]];
    }
  }

  /** Every tick that observed anything stored its state. */
  predicate AllStored(ticks: seq<Tick>) {
    forall k :: 0 <= k < |ticks| ==> ticks[k].paused || ticks[k].persists
  }

  lemma {:induction false} TurnsFollowTheState(ticks: seq<Tick>, id: string)
    requires AllDistinct(ticks)
    requires AllStored(ticks)
    ensures Tracks(About(EventLog(map[], ticks), id), Lookup(StateAfter(map[], ticks), id))
  {
    if ticks != [] {
      var n := |ticks| - 1;
      TurnsFollowTheState(ticks[..n], id);
      var s, log := StateAfter(map[], ticks[..n]), EventLog(map[], ticks[..n]);
      TickIsOwn(s, ticks[n], id);
      AboutDistributes(log, TickEvents(s, ticks[n]), id);
      OneReadingKeepsTrack(About(log, id), Lookup(s, id), Own(ticks[n], id));
    }
  }

  /** Over any run of ticks whose state is stored, one signal's new failures and
      recoveries strictly alternate, starting with a failure, and the signal is failing
      exactly when new failures outnumber recoveries, then by one. */
  lemma FailuresAndRecoveriesAlternate(ticks: seq<Tick>, id: string)
    requires AllDistinct(ticks)
    requires AllStored(ticks)
    ensures var turns := Turns(About(EventLog(map[], ticks), id));
            && Alternates(turns)
            && Count(turns, NewFailure) ==
               Count(turns, Recovery) + (if IsFailing(Lookup(StateAfter(map[], ticks), id)) then 1 else 0)
  {
    TurnsFollowTheState(ticks, id);
    AlternationCounts(Turns(About(EventLog(map[], ticks), id)));
  }

  predicate Worse(band: Option<string>, than: Option<string>) {
    band.Some? && than.Some? && Severity(band.value) > Severity(than.value)
  }

  /** After a stored reading, the next one alone decides what is announced: a recovery or a
      new failure when it turned, an escalation only when the band strictly worsened, and
      nothing when it stayed or improved, whatever was stored before the two. */
  lemma TwoReadingsDecideTheEvent(start: AlertState, first: Tick, second: Tick, id: string)
    requires DistinctNames(first.signals) && DistinctNames(second.signals) && first.persists
    requires Own(first, id).Some? && Own(second, id).Some?
    ensures var was, now := Own(first, id).value, Own(second, id).value;
            var announced := About(TickEvents(TickState(start, first), second), id);
            && |announced| == (if was.ok == now.ok && !(!now.ok && Worse(now.band, was.band)) then 0 else 1)
            && (announced != [] ==>
                  announced[0].transition ==
                  if was.ok != now.ok then (if now.ok then Recovery else NewFailure) else Escalation)
  {
    TickIsOwn(start, first, id);
    TickIsOwn(TickState(start, first), second, id);
  }

  /** One tick of which the state was not stored, with a signal failing for the first time,
      and the next tick announces the same failure as new once more. */
  lemma AnUnstoredTickRepeatsTheAlarm(start: AlertState, t: Tick, id: string)
    requires DistinctNames(t.signals) && !t.persists
    requires Own(t, id).Some? && !Own(t, id).value.ok && !IsFailing(Lookup(start, id))
    ensures Turns(About(EventLog(start, [t, t]), id)) == [NewFailure, NewFailure]
  {
    LogOfTwo(start, t);
    FirstAlarm(start, t, id);
    AboutDistributes(TickEvents(start, t), TickEvents(start, t), id);
    var alarm := About(TickEvents(start, t), id)[0];
    assert About(TickEvents(start, t), id) == [alarm];
    TurnsOfTwo(alarm);
  }

  lemma FirstAlarm(start: AlertState, t: Tick, id: string)
    requires DistinctNames(t.signals)
    requires Own(t, id).Some? && !Own(t, id).value.ok && !IsFailing(Lookup(start, id))
    ensures var own := About(TickEvents(start, t), id); |own| == 1 && own[0].transition == NewFailure
  {
    TickIsOwn(start, t, id);
  }

  lemma TurnsOfTwo(alarm: Event)
    requires alarm.transition == NewFailure
    ensures Turns([alarm] + [alarm]) == [NewFailure, NewFailure]
  {
    TurnsAfterOne([], alarm);
    assert [] + [alarm] == [alarm];
    TurnsAfterOne([alarm], alarm);
  }

  lemma LogOfTwo(start: AlertState, t: Tick)
    requires !t.persists
    ensures EventLog(start, [t, t]) == TickEvents(start, t) + TickEvents(start, t)
  {
    assert [t, t][..1] == [t] && [t][..0] == [];
    assert EventLog(start, [t]) == TickEvents(start, t);
    assert StateAfter(start, [t]) == TickState(start, t);
  }
}
