/**
 * What the heartbeat's age announces (src/atlas/autonomy-loop.ts:206-269): escalations are
 * the crossings of three and of seven days, and only the heartbeat has any.
 */
module AlertBands {
  import opened Common
  import opened Alerts

  /** How far a failing heartbeat is: no age known, under three days, under seven, or seven and more. */
  function Level(ageHours: Option<real>): nat {
    if ageHours.None? then 0
    else 1 + (if ageHours.value < 72.0 then 0 else 1) + if ageHours.value < 168.0 then 0 else 1
  }

  /** What is announced of one check that was read twice. */
  function Announced(was: Check, now: Check): seq<Event> {
    EventFor(Some(RecordFor(CheckReading(was))), CheckReading(now))
  }

  lemma BandsAreLevels(check: Check)
    requires !check.ok
    ensures HeartbeatBand(check).Some? && Severity(HeartbeatBand(check).value) == Level(check.ageHours)
  {}

  /** A heartbeat that goes on failing is announced again exactly when it reaches a higher level. */
  lemma HeartbeatsEscalateIff(was: Check, now: Check)
    requires was.name == now.name == "heartbeat" && !was.ok && !now.ok
    ensures var events := Announced(was, now);
      if Level(was.ageHours) < Level(now.ageHours)
      then |events| == 1 && events[0].transition == Escalation && events[0].id == "heartbeat" && !events[0].ok
      else events == []
  {
    BandsAreLevels(was);
    BandsAreLevels(now);
  }

  /** In hours: exactly when three days or seven days pass between the two readings. */
  lemma EscalationsAreCrossings(was: Check, now: Check, a: real, b: real)
    requires was.name == now.name == "heartbeat" && !was.ok && !now.ok
    requires was.ageHours == Some(a) && now.ageHours == Some(b)
    ensures Announced(was, now) != [] <==> (a < 72.0 <= b) || (a < 168.0 <= b)
  {
    HeartbeatsEscalateIff(was, now);
  }

  /** No other check escalates: while it goes on failing, nothing more is announced. */
  lemma OtherChecksDoNotEscalate(was: Check, now: Check)
    requires was.name == now.name != "heartbeat" && !was.ok && !now.ok
    ensures Announced(was, now) == []
  {}

  /** Turning is announced for every check, with its detail. */
  lemma TurnsAreAnnounced(was: Check, now: Check)
    requires was.name == now.name && was.ok != now.ok
    ensures var events := Announced(was, now);
      && |events| == 1 && events[0].transition == (if now.ok then Recovery else NewFailure)
      && events[0].ok == now.ok && events[0].detail == now.detail
  {}

  /** A check that stays well is not announced, nor is one first seen well; one first seen failing is. */
  lemma FirstReadings(was: Check, now: Check)
    requires was.name == now.name
    ensures was.ok && now.ok ==> Announced(was, now) == []
    ensures var events := EventFor(None, CheckReading(now));
      if now.ok then events == [] else |events| == 1 && events[0].transition == NewFailure
  {}

  /** Repositories are one signal, without bands, that says whether all of them could be read. */
  lemma TheRepositoriesAreOneSignal(signals: Signals)
    ensures var readings := Readings(signals);
      var last := readings[|readings| - 1];
      && |readings| == |signals.checks| + 1 && last.id == "repo-watch" && last.ok == signals.repoOk && last.band.None?
      && last.detail != "" && (!signals.repoOk ==> last.detail == "git read failed for at least one watched repo")
      && (signals.repoOk ==> last.detail == "all watched repos read cleanly")
  {}
}
